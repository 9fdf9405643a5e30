/** Every step of the protocol keeps the invariant that ties slots, locks, messages and ledger
    together. */
module ProtocolProofs {
  import opened Base
  import opened JournalForm
  import opened JournalCommand
  import opened Tables
  import T = Triggers
  import TP = TriggerProofs
  import L = Ledger
  import Refinement
  import opened LedgerProofs
  import opened LedgerTheorems
  import opened Wire
  import opened Protocol

  // ---------------------------------------------------------------- the ledger's part

  ghost predicate Grows(db: Db, later: Db) {
    && later.organizationId == db.organizationId
    && forall j :: j in db.entries ==>
        j in later.entries && later.entries[j] == db.entries[j] && Render(later, j) == Render(db, j)
  }

  /** A command adds journals under its own request id only. */
  ghost predicate AddsOnly(db: Db, later: Db, r: Option<Id>) {
    forall j :: j in later.entries && j !in db.entries ==> Some(later.entries[j].requestId) == r
  }

  lemma CommandAdds(db: Db, cmd: L.Command)
    ensures AddsOnly(db, L.Step(db, cmd), RequestOf(cmd))
  {
    hide L.Post, L.Reverse, L.PostOpening, L.Approve, L.CreateDraft, L.Assess, L.CreateProfile, L.CreateAccount,
         L.CreatePeriod, L.ClosePeriod, Refinement.ReadyToWrite, L.ValidJournal, L.Irreversible, L.ChargeCheck,
         L.RequestTaken;
    if L.Apply(db, cmd).Done? && L.Apply(db, cmd).db != db {
      match cmd {
        case DoPost(ctx, p, id) => Refinement.PostWrites(db, ctx, p, id);
        case DoReverse(ctx, e, r, id) => Refinement.ReverseWrites(db, ctx, e, r, id);
        case DoOpen(ctx, p, id, batchId) => Refinement.OpenWrites(db, ctx, p, id, batchId);
        case DoApprove(ctx, c, id, chargeId) => Refinement.ApproveWrites(db, ctx, c, id, chargeId);
        case _ => NoNewJournal(db, cmd);
      }
    }
  }

  lemma CommandGrows(db: Db, cmd: L.Command)
    requires ServiceInv(db)
    ensures ServiceInv(L.Step(db, cmd)) && Grows(db, L.Step(db, cmd))
  {
    hide TP.Sound, EntryGood, L.Step, TP.ChartExtends, TP.PeriodsExtend, TP.BillingExtends, LinesOf, Debits, Credits,
         SumText, RenderLines, TP.JournalExtends, L.Run;
    var later := L.Step(db, cmd);
    StepKeeps(db, cmd);
    forall j | j in db.entries
      ensures j in later.entries && later.entries[j] == db.entries[j] && Render(later, j) == Render(db, j)
    {
      EntryKept(db, later, j);
    }
  }

  lemma EntryKept(db: Db, later: Db, j: Id)
    requires TP.Settled(db) && TP.JournalExtends(db, later) && j in db.entries
    ensures j in later.entries && later.entries[j] == db.entries[j] && LinesOf(later.lines, j) == LinesOf(db.lines, j)
  {
    hide LinesOf, Debits, Credits, DebitSum, CreditSum;
    assert T.EntrySettled(db, j);
    TP.PostedLinesKept(db, later, j);
  }

  /** A served copy leaves exactly one journal under its request id, with its digest. */
  lemma PostedUnderId(db: Db, ctx: L.Context, q: JournalIn, entryId: Id)
    requires ServiceInv(db) && L.Post(db, ctx, q, entryId).Done?
    ensures var r := L.Post(db, ctx, q, entryId);
            && ServiceInv(r.db) && Grows(db, r.db) && AddsOnly(db, r.db, Some(q.requestId))
            && r.id in r.db.entries && r.db.entries[r.id].requestId == q.requestId
            && forall j :: j in r.db.entries && r.db.entries[j].requestId == q.requestId ==>
                r.db.entries[j].digest == PostDigest(q)
  {
    hide ServiceInv, Grows, AddsOnly, L.Post, L.ValidJournal;
    var r := L.Post(db, ctx, q, entryId);
    CommandGrows(db, L.DoPost(ctx, q, entryId));
    CommandAdds(db, L.DoPost(ctx, q, entryId));
    PostHolds(db, ctx, q, entryId);
    RequestUnique(r.db);
  }

  lemma RequestUnique(db: Db)
    requires ServiceInv(db)
    ensures forall j, k :: j in db.entries && k in db.entries && db.entries[j].requestId == db.entries[k].requestId ==>
              j == k
  {
    hide EntryGood, TP.Settled, TP.Sound;
    SoundEntries(db);
  }

  // ---------------------------------------------------------------- what a step leaves alone

  /** The ledger grew without touching any confirmed request. */
  ghost predicate Untouched(w: World, db: Db) {
    && ServiceInv(db) && Grows(w.db, db)
    && forall j :: j in db.entries && j !in w.db.entries ==> db.entries[j].requestId !in w.minted
  }

  lemma GenuineKept(db: Db, later: Db, m: Message)
    requires Genuine(db, m) && Grows(db, later)
    ensures Genuine(later, m)
  {
    hide Render;
  }

  lemma ElsewhereKeeps(strip: string -> string, w: World, db: Db)
    requires Inv(strip, w) && Untouched(w, db)
    ensures Inv(strip, w.(db := db))
  {
    hide ServiceInv, Render, Verified, ParseJournal, SlotsOwned, HoldersSound, CommitsKnown, Resolved, Deliveries,
         Grows, RecordsProper;
    var v := w.(db := db);
    SameOrganization(w.db, db);
    SameRecords(w, v);
    SameTabs(w, v);
    forall i | 0 <= i < |v.messages|
      ensures Genuine(v.db, v.messages[i])
    {
      GenuineKept(w.db, v.db, w.messages[i]);
    }
    GrownCommits(strip, w, db);
    GrownResolved(w, db);
    GrownDeliveries(w, v);
  }

  lemma SameRecords(w: World, v: World)
    requires RecordsProper(w) && v.minted == w.minted && v.db.organizationId == w.db.organizationId
    ensures RecordsProper(v)
  {
    hide Proper;
  }

  lemma SameOrganization(db: Db, later: Db)
    requires Grows(db, later)
    ensures later.organizationId == db.organizationId
  {
    hide Render;
  }

  /** The tabs' side looks at slots, holders, messages and confirmed commands only. */
  lemma SameTabs(w: World, v: World)
    requires v.slots == w.slots && v.holders == w.holders && v.messages == w.messages && v.minted == w.minted
    ensures SlotsOwned(w) ==> SlotsOwned(v)
    ensures HoldersSound(w) ==> HoldersSound(v)
  {
    hide Rid;
    forall x | x in w.holders && HolderSound(w, x) && FirstAttempt(w, x)
      ensures HolderSound(v, x) && FirstAttempt(v, x)
    {
    }
  }

  lemma GrownCommits(strip: string -> string, w: World, db: Db)
    requires CommitsKnown(strip, w) && Grows(w.db, db)
    requires forall j :: j in db.entries && j !in w.db.entries ==> db.entries[j].requestId !in w.minted
    ensures CommitsKnown(strip, w.(db := db))
  {
    hide Render, ParseJournal, Rid, Acknowledged;
    assert forall r :: Acknowledged(w, r) ==> Acknowledged(w.(db := db), r) by {
      SameAcknowledged(w, w.(db := db));
    }
  }

  lemma SameAcknowledged(w: World, v: World)
    requires v.messages == w.messages
    ensures forall r :: Acknowledged(v, r) == Acknowledged(w, r)
  {
    hide Rid;
  }

  lemma GrownResolved(w: World, db: Db)
    requires Resolved(w) && Grows(w.db, db)
    requires forall j :: j in db.entries && j !in w.db.entries ==> db.entries[j].requestId !in w.minted
    ensures Resolved(w.(db := db))
  {
    hide Render, Rid;
    var v := w.(db := db);
    forall r | r in v.minted
      ensures Held(v, r) || r in v.delivered || Dead(v, r)
    {
      assert Held(w, r) || r in w.delivered || Dead(w, r);
    }
  }

  /** What was shown stays true while the ledger grows and slots only lose other records. */
  lemma GrownDeliveries(w: World, v: World)
    requires Deliveries(w) && v.delivered == w.delivered && Grows(w.db, v.db)
    requires forall r :: r in w.minted ==> r in v.minted && v.minted[r] == w.minted[r]
    requires forall r :: r in w.delivered && r in w.minted && !Held(w, r) ==> !Held(v, r)
    ensures Deliveries(v)
  {
    hide Render, Rid, Verified, Held;
    forall r | r in v.delivered
      ensures DeliveredSound(v, r)
    {
      assert DeliveredSound(w, r);
      var j :| j in w.db.entries && w.db.entries[j].requestId == r && w.delivered[r] == Render(w.db, j);
      assert j in v.db.entries && v.db.entries[j].requestId == r && v.delivered[r] == Render(v.db, j);
    }
  }

  // ---------------------------------------------------------------- answers

  /** The journals an answered message may add: its own, when it is a copy answered with success. */
  ghost predicate AddsOwn(strip: string -> string, w: World, m: Message, a: Answer, db: Db) {
    forall j :: j in db.entries && j !in w.db.entries && db.entries[j].requestId in w.minted ==>
      && !m.lookup && a.Body? && db.entries[j].requestId == Rid(m.pending)
      && Confirmed(strip, w, Rid(m.pending)).Some?
        && db.entries[j].digest == PostDigest(Confirmed(strip, w, Rid(m.pending)).value)
  }

  /** One message in flight is answered, and the ledger grows at most by its own journal. */
  lemma AnsweringKeeps(strip: string -> string, w: World, i: nat, a: Answer, db: Db)
    requires Inv(strip, w) && i < |w.messages| && w.messages[i].fate == InFlight
    requires ServiceInv(db) && Grows(w.db, db) && AddsOwn(strip, w, w.messages[i], a, db)
    requires Genuine(db, w.messages[i].(fate := Answered(a)))
    ensures Inv(strip, Answering(w, i, a).(db := db))
  {
    hide ServiceInv, Render, Verified, ParseJournal, Genuine, Rid, SlotsOwned, HoldersSound, Deliveries, Acknowledged,
         Grows, AddsOwn, Resolved, CommitsKnown, RecordsProper;
    var v := Answering(w, i, a).(db := db);
    SameOrganization(w.db, db);
    SameRecords(w, v);
    AnsweringSlots(w, i, a, db);
    AnsweringHolders(w, i, a, db);
    forall k | 0 <= k < |v.messages|
      ensures Genuine(v.db, v.messages[k])
    {
      if k != i {
        GenuineKept(w.db, v.db, w.messages[k]);
      }
    }
    AnsweringResolved(strip, w, i, a, db);
    AnsweringCommits(strip, w, i, a, db);
    GrownDeliveries(w, v);
  }

  lemma AnsweringSlots(w: World, i: nat, a: Answer, db: Db)
    requires SlotsOwned(w) && i < |w.messages|
    ensures SlotsOwned(Answering(w, i, a).(db := db))
  {
    hide Rid;
  }

  lemma AnsweringResolved(strip: string -> string, w: World, i: nat, a: Answer, db: Db)
    requires Resolved(w) && i < |w.messages| && w.messages[i].fate == InFlight
    requires Grows(w.db, db) && AddsOwn(strip, w, w.messages[i], a, db)
    ensures Resolved(Answering(w, i, a).(db := db))
  {
    hide Grows, AddsOwn, Dead, Rid, L.RequestTaken;
    var v := Answering(w, i, a).(db := db);
    forall r | r in v.minted
      ensures Held(v, r) || r in v.delivered || Dead(v, r)
    {
      if Dead(w, r) {
        StillDead(strip, w, i, a, db, r);
      }
    }
  }

  lemma StillDead(strip: string -> string, w: World, i: nat, a: Answer, db: Db, r: Id)
    requires r in w.minted && Dead(w, r) && i < |w.messages| && w.messages[i].fate == InFlight
    requires Grows(w.db, db) && AddsOwn(strip, w, w.messages[i], a, db)
    ensures Dead(Answering(w, i, a).(db := db), r)
  {
    hide Render, ParseJournal, Rid;
    assert !CopyOf(w.messages[i], r);
  }

  lemma AnsweringCommits(strip: string -> string, w: World, i: nat, a: Answer, db: Db)
    requires CommitsKnown(strip, w) && i < |w.messages| && w.messages[i].fate == InFlight
    requires Grows(w.db, db) && AddsOwn(strip, w, w.messages[i], a, db)
    ensures CommitsKnown(strip, Answering(w, i, a).(db := db))
  {
    hide Render, ParseJournal, Rid, Acknowledged;
    var v := Answering(w, i, a).(db := db);
    forall j | j in v.db.entries && v.db.entries[j].requestId in v.minted
      ensures Acknowledged(v, v.db.entries[j].requestId)
    {
      StillAcknowledged(strip, w, i, a, db, j);
    }
  }

  lemma AnsweringHolders(w: World, i: nat, a: Answer, db: Db)
    requires HoldersSound(w) && i < |w.messages| && w.messages[i].fate == InFlight
    ensures HoldersSound(Answering(w, i, a).(db := db))
  {
    hide Rid, ReadPending;
  }

  lemma StillAcknowledged(strip: string -> string, w: World, i: nat, a: Answer, db: Db, j: Id)
    requires CommitsKnown(strip, w) && i < |w.messages| && w.messages[i].fate == InFlight
    requires Grows(w.db, db) && AddsOwn(strip, w, w.messages[i], a, db)
    requires j in db.entries && db.entries[j].requestId in w.minted
    ensures Acknowledged(Answering(w, i, a).(db := db), db.entries[j].requestId)
  {
    hide Render, ParseJournal, Rid;
    var v, r := Answering(w, i, a).(db := db), db.entries[j].requestId;
    if j in w.db.entries {
      assert Acknowledged(w, r);
      var k :| 0 <= k < |w.messages| && CopyOf(w.messages[k], r) && w.messages[k].fate.Answered?
        && w.messages[k].fate.answer.Body?;
      assert v.messages[k] == w.messages[k];
    } else {
      assert CopyOf(v.messages[i], r);
    }
  }

  lemma GrowsReflexive(db: Db)
    ensures Grows(db, db)
  {
  }

  lemma PlainAnswerKeeps(strip: string -> string, w: World, i: nat, a: Answer)
    requires Inv(strip, w) && i < |w.messages| && w.messages[i].fate == InFlight
    requires Genuine(w.db, w.messages[i].(fate := Answered(a)))
    ensures Inv(strip, Answering(w, i, a))
  {
    hide ServiceInv, SlotsOwned, HoldersSound, AnswersGenuine, CommitsKnown, Resolved, Deliveries, Genuine, Render,
         ParseJournal, RecordsProper;
    GrowsReflexive(w.db);
    AnsweringKeeps(strip, w, i, a, w.db);
    assert Answering(w, i, a).(db := w.db) == Answering(w, i, a);
  }

  lemma LookupGenuine(db: Db, ctx: L.Context, m: Message)
    ensures Genuine(db, m.(fate := Answered(LookupAnswer(db, ctx, m.pending))))
  {
    hide Render, Rid, ParseId, L.Authorize;
  }

  lemma ServeKeeps(strip: string -> string, w: World, i: nat, ctx: L.Context, entryId: Id)
    requires Inv(strip, w)
    ensures Inv(strip, AfterServe(strip, w, i, ctx, entryId))
  {
    hide ServiceInv, HoldersSound, AnswersGenuine, CommitsKnown, Resolved, Deliveries, L.Post, Render, ParseLines,
         ParseDate, RecordsProper;
    if Pend(w, i, false) {
      var m := w.messages[i];
      match ParseJournal(strip, m.pending.payload) {
        case None => PlainAnswerKeeps(strip, w, i, Status(422));
        case Some(q) =>
          match L.Post(w.db, ctx, q, entryId) {
            case Refused(e) => PlainAnswerKeeps(strip, w, i, Status(StatusOf(e)));
            case Done(after, j) =>
              PostedUnderId(w.db, ctx, q, entryId);
              assert Owned(w, m.place, m.pending);
              AnsweringKeeps(strip, w, i, Shown(after, j), after);
          }
      }
    }
  }

  lemma ServeLookupKeeps(strip: string -> string, w: World, i: nat, ctx: L.Context)
    requires Inv(strip, w)
    ensures Inv(strip, AfterServeLookup(w, i, ctx))
  {
    hide Inv, LookupAnswer;
    if Pend(w, i, true) {
      LookupGenuine(w.db, ctx, w.messages[i]);
      PlainAnswerKeeps(strip, w, i, LookupAnswer(w.db, ctx, w.messages[i].pending));
    }
  }

  lemma RejectKeeps(strip: string -> string, w: World, i: nat, code: int)
    requires Inv(strip, w)
    ensures Inv(strip, AfterReject(w, i, code))
  {
    hide Inv;
    if i < |w.messages| && w.messages[i].fate == InFlight {
      PlainAnswerKeeps(strip, w, i, Status(code));
    }
  }

  // ---------------------------------------------------------------- sending

  /** A tab holding its record, or alone at its place, puts one more message on the way. */
  lemma LaunchKeeps(strip: string -> string, w: World, place: Place, tab: nat, p: PendingJournal, lookup: bool,
                    activity: Activity)
    requires Inv(strip, w) && Owned(w, place, p)
    requires place in w.slots && w.slots[place] == Json(p)
    requires Waiting(activity) == Some(|w.messages|) && activity.LookingUp? == lookup
    requires activity.Confirming? ==>
               forall i :: 0 <= i < |w.messages| && CopyOf(w.messages[i], Rid(p)) ==>
                   w.messages[i].fate == Answered(Status(401))
    ensures Inv(strip, Launch(w, place, tab, p, lookup, activity))
  {
    hide ServiceInv, Render, Verified, ParseJournal, Rid, SlotsOwned, HoldersSound, CommitsKnown, Resolved, Deliveries,
         Genuine, RecordsProper;
    var v := Launch(w, place, tab, p, lookup, activity);
    SameRecords(w, v);
    GrowsReflexive(w.db);
    forall i | 0 <= i < |v.messages|
      ensures Genuine(v.db, v.messages[i])
    {
      if i < |w.messages| {
        assert v.messages[i] == w.messages[i];
      } else {
        UnansweredIsGenuine(v.db, v.messages[i]);
      }
    }
    LaunchSlots(w, place, tab, p, lookup, activity);
    LaunchHolders(w, place, tab, p, lookup, activity);
    LaunchResolved(w, place, tab, p, lookup, activity);
    LaunchCommits(strip, w, place, tab, p, lookup, activity);
    GrownDeliveries(w, v);
  }

  lemma UnansweredIsGenuine(db: Db, m: Message)
    requires m.fate == InFlight
    ensures Genuine(db, m)
  {
  }

  lemma LaunchSlots(w: World, place: Place, tab: nat, p: PendingJournal, lookup: bool, activity: Activity)
    requires SlotsOwned(w) && Owned(w, place, p)
    ensures SlotsOwned(Launch(w, place, tab, p, lookup, activity))
  {
    hide Rid;
  }

  lemma LaunchHolders(w: World, place: Place, tab: nat, p: PendingJournal, lookup: bool, activity: Activity)
    requires SlotsOwned(w) && HoldersSound(w) && Owned(w, place, p)
    requires place in w.slots && w.slots[place] == Json(p)
    requires Waiting(activity) == Some(|w.messages|) && activity.LookingUp? == lookup
    requires activity.Confirming? ==>
               forall i :: 0 <= i < |w.messages| && CopyOf(w.messages[i], Rid(p)) ==>
                   w.messages[i].fate == Answered(Status(401))
    ensures HoldersSound(Launch(w, place, tab, p, lookup, activity))
  {
    hide SlotsOwned, HolderSound, FirstAttempt, Rid;
    forall x | x in Launch(w, place, tab, p, lookup, activity).holders
      ensures HolderSound(Launch(w, place, tab, p, lookup, activity), x)
      ensures FirstAttempt(Launch(w, place, tab, p, lookup, activity), x)
    {
      LaunchHolder(w, place, tab, p, lookup, activity, x);
    }
  }

  lemma LaunchResolved(w: World, place: Place, tab: nat, p: PendingJournal, lookup: bool, activity: Activity)
    requires Resolved(w) && Owned(w, place, p) && place in w.slots && w.slots[place] == Json(p)
    ensures Resolved(Launch(w, place, tab, p, lookup, activity))
  {
    hide Rid, L.RequestTaken;
    var v := Launch(w, place, tab, p, lookup, activity);
    assert Held(w, Rid(p));
    forall r | r in v.minted
      ensures Held(v, r) || r in v.delivered || Dead(v, r)
    {
      assert Held(w, r) || r in w.delivered || Dead(w, r);
    }
  }

  lemma LaunchCommits(strip: string -> string, w: World, place: Place, tab: nat, p: PendingJournal, lookup: bool,
                      activity: Activity)
    requires CommitsKnown(strip, w)
    ensures CommitsKnown(strip, Launch(w, place, tab, p, lookup, activity))
  {
    hide Rid, ParseJournal;
    var v := Launch(w, place, tab, p, lookup, activity);
    forall r | Acknowledged(w, r)
      ensures Acknowledged(v, r)
    {
      var k :| 0 <= k < |w.messages| && CopyOf(w.messages[k], r) && w.messages[k].fate.Answered?
        && w.messages[k].fate.answer.Body?;
      assert v.messages[k] == w.messages[k];
    }
  }

  lemma LaunchHolder(w: World, place: Place, tab: nat, p: PendingJournal, lookup: bool, activity: Activity, x: Place)
    requires SlotsOwned(w) && HoldersSound(w) && Owned(w, place, p)
    requires place in w.slots && w.slots[place] == Json(p)
    requires Waiting(activity) == Some(|w.messages|) && activity.LookingUp? == lookup
    requires activity.Confirming? ==>
               forall i :: 0 <= i < |w.messages| && CopyOf(w.messages[i], Rid(p)) ==>
                   w.messages[i].fate == Answered(Status(401))
    requires x in Launch(w, place, tab, p, lookup, activity).holders
    ensures HolderSound(Launch(w, place, tab, p, lookup, activity), x)
    ensures FirstAttempt(Launch(w, place, tab, p, lookup, activity), x)
  {
    hide ReadPending, Rid;
    if x != place {
      assert HolderSound(w, x) && FirstAttempt(w, x);
      assert Owned(w, x, w.holders[x].pending);
    }
  }

  lemma SendKeeps(strip: string -> string, w: World, place: Place)
    requires Inv(strip, w)
    ensures Inv(strip, AfterSend(w, place))
  {
    hide ServiceInv, AnswersGenuine, CommitsKnown, Resolved, Deliveries, Launch, Rid, RecordsProper;
    if place in w.holders && w.holders[place].activity == Confirming(None) {
      assert HolderSound(w, place) && FirstAttempt(w, place);
      LaunchKeeps(strip, w, place, w.holders[place].tab, w.holders[place].pending, false,
                  Confirming(Some(|w.messages|)));
    }
  }

  lemma FoundInSlot(w: World, place: Place)
    requires ReadPending(SlotAt(w, place), place.scope).Found?
    ensures place in w.slots && w.slots[place] == Json(ReadPending(SlotAt(w, place), place.scope).pending)
  {
    hide Normalize, RecordLength;
  }

  lemma RecoverKeeps(strip: string -> string, w: World, tab: nat, place: Place, lookup: bool)
    requires Inv(strip, w)
    ensures Inv(strip, AfterRecover(w, tab, place, lookup))
  {
    hide ServiceInv, HoldersSound, AnswersGenuine, CommitsKnown, Resolved, Deliveries, Launch, Rid, ReadPending,
         RecordsProper;
    if ReadPending(SlotAt(w, place), place.scope).Found? && place !in w.holders {
      FoundInSlot(w, place);
      var p := ReadPending(SlotAt(w, place), place.scope).pending;
      LaunchKeeps(strip, w, place, tab, p, lookup, if lookup then LookingUp(|w.messages|) else Resending(|w.messages|));
    }
  }

  lemma RenewKeeps(strip: string -> string, w: World, place: Place)
    requires Inv(strip, w)
    ensures Inv(strip, AfterRenew(w, place))
  {
    hide ServiceInv, AnswersGenuine, CommitsKnown, Resolved, Deliveries, Launch, Rid, RecordsProper;
    if place in w.holders && Refusal(w, w.holders[place].activity) == Some(Status(401)) {
      assert HolderSound(w, place) && FirstAttempt(w, place);
      var h, next := w.holders[place], |w.messages|;
      match h.activity {
        case Confirming(_) => LaunchKeeps(strip, w, place, h.tab, h.pending, false, Confirming(Some(next)));
        case Resending(_) => LaunchKeeps(strip, w, place, h.tab, h.pending, false, Resending(next));
        case LookingUp(_) => LaunchKeeps(strip, w, place, h.tab, h.pending, true, LookingUp(next));
      }
    }
  }

  // ---------------------------------------------------------------- saving

  lemma SaveKeeps(strip: string -> string, w: World, tab: nat, place: Place, draft: JournalDraft, newId: string)
    requires Inv(strip, w)
    ensures Inv(strip, AfterSave(w, tab, place, draft, newId))
  {
    hide Inv, Normalize, RecordLength;
    if AfterSave(w, tab, place, draft, newId) != w {
      NothingIsEmpty(w, place);
      NormalizeIdempotent(draft);
      NewRecordKeeps(strip, w, tab, place, NewPending(place.scope, Normalize(draft).value, newId));
    }
  }

  lemma NothingIsEmpty(w: World, place: Place)
    requires ReadPending(SlotAt(w, place), place.scope) == Nothing
    ensures place !in w.slots
  {
    hide Normalize, RecordLength;
  }

  /** An unreadable text takes the place of no record. */
  lemma GarbleKeeps(strip: string -> string, w: World, place: Place, draft: JournalDraft)
    requires Inv(strip, w)
    ensures Inv(strip, AfterGarble(w, place, draft))
  {
    hide ServiceInv, Render, Verified, ParseJournal, Rid, CommitsKnown, Resolved, Deliveries, Genuine, Normalize,
         RecordLength, Proper, L.RequestTaken, RecordsProper;
    var v := AfterGarble(w, place, draft);
    if v != w {
      NothingIsEmpty(w, place);
      forall x | x in v.holders
        ensures HolderSound(v, x) && FirstAttempt(v, x)
      {
        assert HolderSound(w, x) && FirstAttempt(w, x);
      }
      assert forall r :: r in w.minted ==> Held(v, r) == Held(w, r);
      ReleasedResolved(w, v);
      SameCommits(strip, w, v);
      GrowsReflexive(w.db);
      GrownDeliveries(w, v);
      SameRecords(w, v);
    }
  }

  function Recording(w: World, tab: nat, place: Place, p: PendingJournal): World {
    w.(slots := w.slots[place := Json(p)], holders := w.holders[place := Holder(tab, p, Confirming(None))],
       minted := w.minted[Rid(p) := Minted(place, p)])
  }

  lemma NewRecordKeeps(strip: string -> string, w: World, tab: nat, place: Place, p: PendingJournal)
    requires Inv(strip, w) && place !in w.holders && place !in w.slots
    requires Rid(p) !in w.minted && !L.RequestTaken(w.db, Rid(p)) && Proper(Minted(place, p), w.db.organizationId)
    ensures Inv(strip, Recording(w, tab, place, p))
  {
    hide ServiceInv, Render, Verified, ParseJournal, Rid, SlotsOwned, HoldersSound, CommitsKnown, Resolved, Deliveries,
         Genuine, L.RequestTaken, Proper;
    var v := Recording(w, tab, place, p);
    GrowsReflexive(w.db);
    RecordingTabs(w, tab, place, p);
    RecordingResolved(w, tab, place, p);
    RecordingCommits(strip, w, tab, place, p);
    RecordingHeld(w, tab, place, p);
    GrownDeliveries(w, v);
  }

  lemma RecordingTabs(w: World, tab: nat, place: Place, p: PendingJournal)
    requires SlotsOwned(w) && HoldersSound(w) && place !in w.holders && place !in w.slots && Rid(p) !in w.minted
    ensures SlotsOwned(Recording(w, tab, place, p)) && HoldersSound(Recording(w, tab, place, p))
  {
    hide Rid;
    var v := Recording(w, tab, place, p);
    assert forall i :: 0 <= i < |w.messages| ==> Owned(w, w.messages[i].place, w.messages[i].pending);
    forall x | x in v.holders
      ensures HolderSound(v, x) && FirstAttempt(v, x)
    {
      if x != place {
        assert HolderSound(w, x) && FirstAttempt(w, x);
      }
    }
  }

  lemma RecordingHeld(w: World, tab: nat, place: Place, p: PendingJournal)
    requires SlotsOwned(w) && place !in w.slots && Rid(p) !in w.minted
    ensures forall r :: r in w.minted ==> Held(Recording(w, tab, place, p), r) == Held(w, r)
  {
    hide Rid;
  }

  lemma RecordingResolved(w: World, tab: nat, place: Place, p: PendingJournal)
    requires SlotsOwned(w) && Resolved(w) && place !in w.slots && Rid(p) !in w.minted
    ensures Resolved(Recording(w, tab, place, p))
  {
    hide Rid, L.RequestTaken, SlotsOwned;
    RecordingHeld(w, tab, place, p);
    var v := Recording(w, tab, place, p);
    forall r | r in v.minted
      ensures Held(v, r) || r in v.delivered || Dead(v, r)
    {
      if r != Rid(p) {
        assert Held(w, r) || r in w.delivered || Dead(w, r);
      }
    }
  }

  lemma RecordingCommits(strip: string -> string, w: World, tab: nat, place: Place, p: PendingJournal)
    requires CommitsKnown(strip, w) && Rid(p) !in w.minted && !L.RequestTaken(w.db, Rid(p))
    ensures CommitsKnown(strip, Recording(w, tab, place, p))
  {
    hide Rid, ParseJournal, Acknowledged;
    SameAcknowledged(w, Recording(w, tab, place, p));
  }

  // ---------------------------------------------------------------- delivering

  lemma AbandonKeeps(strip: string -> string, w: World, place: Place)
    requires Inv(strip, w)
    ensures Inv(strip, AfterAbandon(w, place))
  {
    hide ServiceInv, Render, Verified, ParseJournal, Rid, SlotsOwned, HoldersSound, CommitsKnown, Resolved, Deliveries,
         Genuine, RecordsProper;
    var v := AfterAbandon(w, place);
    SameRecords(w, v);
    GrowsReflexive(w.db);
    FreedTabs(w, v, place);
    GrownResolved(w, w.db);
    ReleasedResolved(w, v);
    SameCommits(strip, w, v);
    GrownDeliveries(w, v);
  }

  /** Freeing a place, and perhaps its slot, leaves the other places as they were. */
  lemma FreedTabs(w: World, v: World, place: Place)
    requires v.holders == w.holders - {place} && (v.slots == w.slots || v.slots == w.slots - {place})
    requires v.messages == w.messages && v.minted == w.minted
    ensures SlotsOwned(w) ==> SlotsOwned(v)
    ensures HoldersSound(w) ==> HoldersSound(v)
  {
    hide Rid;
    forall x | x in v.holders && HolderSound(w, x) && FirstAttempt(w, x)
      ensures HolderSound(v, x) && FirstAttempt(v, x)
    {
    }
  }

  lemma ReleasedResolved(w: World, v: World)
    requires Resolved(w) && v.db == w.db && v.messages == w.messages && v.minted == w.minted
    requires forall r :: r in w.minted && Held(w, r) ==> Held(v, r) || r in v.delivered || Dead(w, r)
    requires forall r :: r in w.delivered ==> r in v.delivered
    ensures Resolved(v)
  {
    hide Rid, L.RequestTaken, Held;
    forall r | r in v.minted
      ensures Held(v, r) || r in v.delivered || Dead(v, r)
    {
      assert Held(w, r) || r in w.delivered || Dead(w, r);
    }
  }

  lemma SameCommits(strip: string -> string, w: World, v: World)
    requires CommitsKnown(strip, w) && v.db == w.db && v.messages == w.messages && v.minted == w.minted
    ensures CommitsKnown(strip, v)
  {
    hide Rid, ParseJournal, Acknowledged;
    SameAcknowledged(w, v);
  }

  /** Three ways a delivery ends: nothing is cleared, a verified answer clears the slot and is
      shown, or a definite rejection of a first attempt clears it. */
  lemma FinishOutcomes(place: Place, h: Holder, answer: Answer, at: Setting)
    ensures var (slot, outcome) := Finish(h.activity, Some(Json(h.pending)), place, h.pending, answer, at);
            || (slot == Some(Json(h.pending)) && !outcome.Delivered?)
            || (&& slot == None && ReadPending(Some(Json(h.pending)), place.scope) == Found(h.pending)
                && if outcome.Delivered?
                   then Body(outcome.journal) == answer && Verified(outcome.journal, h.pending)
                   else h.activity.Confirming? && answer.Status? && DefiniteRejection(answer.code))
  {
    hide ReadPending, Verified, DefiniteRejection;
    ConfirmClearsExactly(place.scope, h.pending, answer, at);
    RecoveryClearsExactly(place.scope, h.pending, answer, at);
  }

  /** A first attempt that was rejected is dead: every copy of it has been refused. */
  lemma RejectedIsDead(strip: string -> string, w: World, place: Place)
    requires Inv(strip, w) && place in w.holders && w.holders[place].activity.Confirming?
    requires Refusal(w, w.holders[place].activity).Some? && Refusal(w, w.holders[place].activity).value.Status?
    ensures Dead(w, Rid(w.holders[place].pending))
  {
    hide ServiceInv, Render, Verified, ParseJournal, ReadPending, Rid, AnswersGenuine, Resolved, Deliveries,
         RecordsProper;
    assert HolderSound(w, place) && FirstAttempt(w, place);
    var r := Rid(w.holders[place].pending);
    assert Owned(w, place, w.holders[place].pending);
    assert !Acknowledged(w, r);
  }

  function Releasing(w: World, place: Place, delivered: map<Id, WireJournal>): World {
    w.(slots := w.slots - {place}, holders := w.holders - {place}, delivered := delivered)
  }

  /** The slot is cleared for a command that is dead or whose success is shown. */
  lemma ReleaseKeeps(strip: string -> string, w: World, place: Place, p: PendingJournal, delivered: map<Id,
                     WireJournal>)
    requires Inv(strip, w) && Owned(w, place, p) && place in w.slots && w.slots[place] == Json(p)
    requires || (delivered == w.delivered && Dead(w, Rid(p)))
             || (&& Rid(p) in delivered && delivered == w.delivered[Rid(p) := delivered[Rid(p)]]
                 && Verified(delivered[Rid(p)], p)
                 && exists j ::
                      j in w.db.entries && w.db.entries[j].requestId == Rid(p) && delivered[Rid(p)] == Render(w.db, j))
    ensures Inv(strip, Releasing(w, place, delivered))
  {
    hide ServiceInv, Render, Verified, ParseJournal, Rid, SlotsOwned, HoldersSound, CommitsKnown, Resolved, Deliveries,
         Genuine, Dead, RecordsProper;
    var v := Releasing(w, place, delivered);
    SameRecords(w, v);
    FreedTabs(w, v, place);
    ReleasedHeld(w, place, p, delivered);
    ReleasedResolved(w, v);
    SameCommits(strip, w, v);
    ReleasedDeliveries(w, place, p, delivered);
  }

  lemma ReleasedHeld(w: World, place: Place, p: PendingJournal, delivered: map<Id, WireJournal>)
    requires SlotsOwned(w) && Owned(w, place, p) && place in w.slots && w.slots[place] == Json(p)
    ensures forall r :: r in w.minted ==> (Held(Releasing(w, place, delivered), r) <==> Held(w, r) && r != Rid(p))
  {
    hide Rid;
    forall r | r in w.minted && Held(w, r) && r != Rid(p)
      ensures Held(Releasing(w, place, delivered), r)
    {
      assert w.minted[r].place != place;
    }
  }

  lemma ReleasedDeliveries(w: World, place: Place, p: PendingJournal, delivered: map<Id, WireJournal>)
    requires SlotsOwned(w) && Deliveries(w) && Owned(w, place, p) && place in w.slots && w.slots[place] == Json(p)
    requires || delivered == w.delivered
             || (&& Rid(p) in delivered && delivered == w.delivered[Rid(p) := delivered[Rid(p)]]
                 && Verified(delivered[Rid(p)], p)
                 && exists j ::
                      j in w.db.entries && w.db.entries[j].requestId == Rid(p) && delivered[Rid(p)] == Render(w.db, j))
    ensures Deliveries(Releasing(w, place, delivered))
  {
    hide Render, Rid, Verified, SlotsOwned, Held;
    ReleasedHeld(w, place, p, delivered);
    HeldHere(w, place, p);
    forall r | r in delivered
      ensures DeliveredSound(Releasing(w, place, delivered), r)
    {
      if r in w.delivered {
        assert DeliveredSound(w, r);
      }
    }
  }

  lemma HeldHere(w: World, place: Place, p: PendingJournal)
    requires Owned(w, place, p) && place in w.slots && w.slots[place] == Json(p)
    ensures Held(w, Rid(p))
  {
    hide Rid;
  }

  lemma DeliverKeeps(strip: string -> string, w: World, place: Place, answer: Answer, at: Setting)
    requires Inv(strip, w)
    ensures Inv(strip, AfterDeliver(w, place, answer, at))
  {
    hide ServiceInv, CommitsKnown, Resolved, Render, Verified, ParseJournal, ReadPending, Rid, Finish, Dead,
         DefiniteRejection, Deliveries, RecordsProper;
    var v := AfterDeliver(w, place, answer, at);
    if v != w {
      var h := w.holders[place];
      assert HolderSound(w, place);
      assert Owned(w, place, h.pending);
      FinishOutcomes(place, h, answer, at);
      var (slot, outcome) := Finish(h.activity, Some(Json(h.pending)), place, h.pending, answer, at);
      if slot.Some? {
        assert v.slots == w.slots;
        AbandonKeeps(strip, w, place);
      } else if outcome.Delivered? {
        assert Genuine(w.db, w.messages[Waiting(h.activity).value]);
        ReleaseKeeps(strip, w, place, h.pending, v.delivered);
      } else {
        RejectedIsDead(strip, w, place);
        ReleaseKeeps(strip, w, place, h.pending, v.delivered);
      }
    }
  }

  /** A status that leaves the copy on its way clears nothing. */
  lemma CutIsAbandon(strip: string -> string, w: World, place: Place, code: int, at: Setting)
    requires HoldersSound(w) && AfterCut(w, place, code, at) != w
    ensures AfterCut(w, place, code, at) == AfterAbandon(w, place)
  {
    hide Finish, FirstAttempt, ReadPending, Verified;
    assert HolderSound(w, place);
    FinishOutcomes(place, w.holders[place], Status(code), at);
  }

  lemma CutKeeps(strip: string -> string, w: World, place: Place, code: int, at: Setting)
    requires Inv(strip, w)
    ensures Inv(strip, AfterCut(w, place, code, at))
  {
    hide ServiceInv, SlotsOwned, HoldersSound, AnswersGenuine, CommitsKnown, Resolved, Deliveries, RecordsProper,
         AfterCut;
    if AfterCut(w, place, code, at) != w {
      CutIsAbandon(strip, w, place, code, at);
      AbandonKeeps(strip, w, place);
    }
  }

  // ---------------------------------------------------------------- every step

  lemma ElsewhereStepKeeps(strip: string -> string, w: World, cmd: L.Command)
    requires Inv(strip, w)
    ensures Inv(strip, AfterElsewhere(w, cmd))
  {
    hide ServiceInv, SlotsOwned, HoldersSound, AnswersGenuine, CommitsKnown, Resolved, Deliveries, L.Step, Grows,
         RequestOf, RecordsProper;
    if !(RequestOf(cmd).Some? && RequestOf(cmd).value in w.minted) {
      CommandGrows(w.db, cmd);
      CommandAdds(w.db, cmd);
      ElsewhereKeeps(strip, w, L.Step(w.db, cmd));
    }
  }

  lemma NextKeeps(strip: string -> string, w: World, step: Step)
    requires Inv(strip, w)
    ensures Inv(strip, Next(strip, w, step))
  {
    hide Inv, AfterSave, AfterGarble, AfterSend, AfterRecover, AfterServe, AfterServeLookup, AfterReject, AfterRenew,
         AfterDeliver, AfterCut, AfterAbandon, AfterElsewhere;
    match step {
      case Save(tab, place, draft, newId) => SaveKeeps(strip, w, tab, place, draft, newId);
      case Garble(place, draft) => GarbleKeeps(strip, w, place, draft);
      case Send(place) => SendKeeps(strip, w, place);
      case Resend(tab, place) => RecoverKeeps(strip, w, tab, place, false);
      case LookUp(tab, place) => RecoverKeeps(strip, w, tab, place, true);
      case Serve(i, ctx, entryId) => ServeKeeps(strip, w, i, ctx, entryId);
      case ServeLookup(i, ctx) => ServeLookupKeeps(strip, w, i, ctx);
      case Reject(i, code) => RejectKeeps(strip, w, i, code);
      case Renew(place) => RenewKeeps(strip, w, place);
      case Deliver(place, answer, at) => DeliverKeeps(strip, w, place, answer, at);
      case Cut(place, code, at) => CutKeeps(strip, w, place, code, at);
      case Abandon(place) => AbandonKeeps(strip, w, place);
      case Elsewhere(cmd) => ElsewhereStepKeeps(strip, w, cmd);
    }
  }

  lemma {:induction false} ExecutionKeeps(strip: string -> string, w: World, steps: seq<Step>)
    requires Inv(strip, w)
    ensures Inv(strip, Execution(strip, w, steps))
  {
    hide Inv, Next;
    if steps != [] {
      ExecutionKeeps(strip, w, steps[..|steps| - 1]);
      NextKeeps(strip, Execution(strip, w, steps[..|steps| - 1]), steps[|steps| - 1]);
    }
  }

  lemma StartSound(strip: string -> string, db: Db)
    requires ServiceInv(db)
    ensures Inv(strip, Start(db))
  {
    hide ServiceInv;
  }
}
