/** Which confirmed commands can be brought to an end: when a committed journal can still be
    shown to its user, and when its record blocks its slot for ever. */
module ProtocolRecovery {
  import opened Base
  import opened WireText
  import opened JournalForm
  import opened JournalCommand
  import opened Tables
  import TP = TriggerProofs
  import L = Ledger
  import opened LedgerProofs
  import opened Wire
  import opened Protocol
  import opened ProtocolProofs
  import opened ProtocolTheorems

  // ---------------------------------------------------------------- executions

  lemma {:induction false} ExecutionConcat(strip: string -> string, w: World, a: seq<Step>, b: seq<Step>)
    ensures Execution(strip, w, a + b) == Execution(strip, Execution(strip, w, a), b)
  {
    hide Next;
    if b == [] {
      assert a + b == a;
    } else {
      assert (a + b)[..|a + b| - 1] == a + b[..|b| - 1];
      ExecutionConcat(strip, w, a, b[..|b| - 1]);
    }
  }

  lemma ThreeSteps(strip: string -> string, w: World, a: Step, b: Step, c: Step)
    ensures Execution(strip, w, [a, b, c]) == Next(strip, Next(strip, Next(strip, w, a), b), c)
  {
    hide Next;
    var steps := [a, b, c];
    assert steps[..2] == [a, b] && [a, b][..1] == [a] && [a][..0] == [];
    assert Execution(strip, w, [a]) == Next(strip, w, a);
    assert Execution(strip, w, [a, b]) == Next(strip, Next(strip, w, a), b);
  }

  lemma OneStep(strip: string -> string, w: World, a: Step)
    ensures Execution(strip, w, [a]) == Next(strip, w, a)
  {
    hide Next;
    assert [a][..0] == [];
  }

  lemma {:induction false} MintedForEver(strip: string -> string, w: World, steps: seq<Step>, r: Id)
    requires r in w.minted
    ensures r in Execution(strip, w, steps).minted && Execution(strip, w, steps).minted[r] == w.minted[r]
  {
    hide Next;
    if steps != [] {
      MintedForEver(strip, w, steps[..|steps| - 1], r);
      MintedKept(strip, Execution(strip, w, steps[..|steps| - 1]), steps[|steps| - 1], r);
    }
  }

  /** Whatever happens, stored journals are printed as before. */
  lemma NextGrows(strip: string -> string, w: World, step: Step)
    requires Inv(strip, w)
    ensures Grows(w.db, Next(strip, w, step).db)
  {
    hide ServiceInv, SlotsOwned, HoldersSound, AnswersGenuine, CommitsKnown, Resolved, Deliveries, RecordsProper,
         Grows, L.Post, L.Step, ParseJournal, Normalize, ReadPending, Finish, LookupAnswer, Shown, StatusOf,
         L.RequestTaken, Refusal;
    GrowsReflexive(w.db);
    match step {
      case Serve(i, ctx, entryId) =>
        if Pend(w, i, false) && ParseJournal(strip, w.messages[i].pending.payload).Some? {
          var q := ParseJournal(strip, w.messages[i].pending.payload).value;
          if L.Post(w.db, ctx, q, entryId).Done? {
            PostedUnderId(w.db, ctx, q, entryId);
          }
        }
      case Elsewhere(cmd) => CommandGrows(w.db, cmd);
      case _ =>
    }
  }

  // ---------------------------------------------------------------- what clears a slot

  /** A record is in its slot. */
  predicate Slotted(w: World, place: Place, p: PendingJournal) { place in w.slots && w.slots[place] == Json(p) }

  /** A delivery to the tab that works on this record clears it. */
  predicate Clears(w: World, step: Step, place: Place, p: PendingJournal) {
    && step.Deliver? && step.place == place && place in w.holders && w.holders[place].pending == p
    && var h := w.holders[place];
       && (|| Refusal(w, h.activity) == Some(step.answer)
           || (Refusal(w, h.activity) == Some(Status(401)) && step.answer.Status?))
       && Finish(h.activity, Some(Json(p)), place, p, step.answer, step.at).0 == None
  }

  lemma KeptUnlessCleared(strip: string -> string, w: World, step: Step, place: Place, p: PendingJournal)
    requires Inv(strip, w) && Slotted(w, place, p)
    ensures Slotted(Next(strip, w, step), place, p) || Clears(w, step, place, p)
  {
    hide ServiceInv, SlotsOwned, AnswersGenuine, CommitsKnown, Resolved, Deliveries, RecordsProper, Normalize, Finish,
         ParseJournal, L.Post, LookupAnswer, L.Step, Shown, L.RequestTaken, FirstAttempt, Refusal, StatusOf,
         RecordLength;
    if step.Cut? && Next(strip, w, step) != w {
      CutIsAbandon(strip, w, step.place, step.code, step.at);
    }
    if step.Deliver? && step.place in w.holders {
      assert HolderSound(w, step.place);
      FinishOutcomes(step.place, w.holders[step.place], step.answer, step.at);
    }
  }

  // ---------------------------------------------------------------- records that are never cleared

  /** A record over the length limit stays in its slot in every continuation. */
  lemma {:induction false} OversizedBlocksForEver(strip: string -> string, w: World, steps: seq<Step>, place: Place,
                                                  p: PendingJournal)
    requires Inv(strip, w) && Slotted(w, place, p) && RecordLength(p) > MAX_RECORD
    ensures Slotted(Execution(strip, w, steps), place, p)
  {
    hide Inv, Next, RecordLength, Slotted, Clears;
    if steps != [] {
      var front := steps[..|steps| - 1];
      OversizedBlocksForEver(strip, w, front, place, p);
      ExecutionKeeps(strip, w, front);
      KeptUnlessCleared(strip, Execution(strip, w, front), steps[|steps| - 1], place, p);
      OversizedNotCleared(Execution(strip, w, front), steps[|steps| - 1], place, p);
    }
  }

  lemma OversizedNotCleared(w: World, step: Step, place: Place, p: PendingJournal)
    requires RecordLength(p) > MAX_RECORD
    ensures !Clears(w, step, place, p)
  {
    hide RecordLength, Finish, Normalize, Verified, DefiniteRejection, Refusal;
    if Clears(w, step, place, p) {
      FinishOutcomes(place, w.holders[place], step.answer, step.at);
    }
  }

  /** The confirmed command of a slot is in the ledger, as journal j. */
  ghost predicate Committed(w: World, place: Place, p: PendingJournal, j: Id) {
    Slotted(w, place, p) && j in w.db.entries && w.db.entries[j].requestId == Rid(p)
  }

  /** The only answer about a committed command shows its journal, and the browser recognizes
      it exactly under Recognizable. */
  lemma CommittedVerifiesExactly(strip: string -> string, w: World, place: Place, p: PendingJournal, j: Id)
    requires Inv(strip, w) && Committed(w, place, p, j)
    ensures Verified(Render(w.db, j), p) <==> Recognizable(strip, p, w.db, j)
  {
    hide ServiceInv, HoldersSound, AnswersGenuine, Resolved, Deliveries, Verified, Render, TextsAgree, ParseJournal,
         Normalize, Rid, Acknowledged, Recognizable;
    assert Owned(w, place, p);
    assert Proper(w.minted[Rid(p)], w.db.organizationId);
    HonestAnswerVerifies(strip, w.db, j, p);
  }

  lemma ClearedByVerified(strip: string -> string, w: World, step: Step, place: Place, p: PendingJournal, j: Id)
    requires Inv(strip, w) && Committed(w, place, p, j) && Clears(w, step, place, p)
    ensures Verified(Render(w.db, j), p)
  {
    hide ServiceInv, SlotsOwned, CommitsKnown, Resolved, Deliveries, RecordsProper, Verified, Render, Rid, ReadPending,
         Finish, Dead, DefiniteRejection, FirstAttempt;
    var h := w.holders[place];
    assert HolderSound(w, place);
    FinishOutcomes(place, h, step.answer, step.at);
    var (slot, outcome) := Finish(h.activity, Some(Json(p)), place, p, step.answer, step.at);
    if outcome.Delivered? {
      assert Genuine(w.db, w.messages[Waiting(h.activity).value]);
      RequestUnique(w.db);
    } else {
      RejectedIsDead(strip, w, place);
      DeadIsAbsent(w, Rid(p), j);
    }
  }

  lemma DeadIsAbsent(w: World, r: Id, j: Id)
    requires Dead(w, r) && j in w.db.entries
    ensures w.db.entries[j].requestId != r
  {
  }

  lemma CommittedStays(strip: string -> string, w: World, step: Step, place: Place, p: PendingJournal, j: Id)
    requires Inv(strip, w) && Committed(w, place, p, j) && !Recognizable(strip, p, w.db, j)
    ensures Committed(Next(strip, w, step), place, p, j) && !Recognizable(strip, p, Next(strip, w, step).db, j)
  {
    hide Inv, Next, Clears, Render, Verified, TextsAgree, Rid;
    NextGrows(strip, w, step);
    KeptUnlessCleared(strip, w, step, place, p);
    CommittedVerifiesExactly(strip, w, place, p, j);
    if Clears(w, step, place, p) {
      ClearedByVerified(strip, w, step, place, p, j);
    }
  }

  /** A committed command whose journal the browser cannot recognize: no answer, lookup or
      resend ever shows it, and its record stays in the slot in every continuation. */
  lemma {:induction false} UnrecognizedBlocksForEver(strip: string -> string, w: World, steps: seq<Step>, place: Place,
                                                     p: PendingJournal, j: Id)
    requires Inv(strip, w) && Committed(w, place, p, j) && !Recognizable(strip, p, w.db, j)
    ensures Committed(Execution(strip, w, steps), place, p, j)
    ensures !Recognizable(strip, p, Execution(strip, w, steps).db, j)
  {
    hide Inv, Next, Recognizable, Committed;
    if steps != [] {
      var front := steps[..|steps| - 1];
      UnrecognizedBlocksForEver(strip, w, front, place, p, j);
      ExecutionKeeps(strip, w, front);
      CommittedStays(strip, Execution(strip, w, front), steps[|steps| - 1], place, p, j);
    }
  }

  // ---------------------------------------------------------------- one lookup, one resend

  /** The session goes on and the storage works. */
  const UNDISTURBED := Setting(true, true)

  /** The tab that looked up or resent gets an answer: a recognized one is shown and clears the
      slot, any other leaves it as it is. */
  lemma DeliveredAtEnd(w: World, place: Place, p: PendingJournal, shown: WireJournal)
    requires place in w.holders && Slotted(w, place, p) && w.holders[place].pending == p
    requires !w.holders[place].activity.Confirming? && Refusal(w, w.holders[place].activity) == Some(Body(shown))
    requires ReadPending(Some(Json(p)), place.scope) == Found(p)
    ensures var end := AfterDeliver(w, place, Body(shown), UNDISTURBED);
            && end.db == w.db && place !in end.holders
            && if Verified(shown, p)
               then place !in end.slots && Rid(p) in end.delivered && end.delivered[Rid(p)] == shown
               else Slotted(end, place, p) && end.delivered == w.delivered
  {
    hide Verified, ReadPending, Rid;
    RecoveryClearsExactly(place.scope, p, Body(shown), UNDISTURBED);
    if Verified(shown, p) {
      RecognizedIsShown(place, p, shown);
    }
  }

  lemma RecognizedIsShown(place: Place, p: PendingJournal, shown: WireJournal)
    requires ReadPending(Some(Json(p)), place.scope) == Found(p) && Verified(shown, p)
    ensures FinishLookup(Some(Json(p)), place.scope, p, Body(shown), UNDISTURBED) == (None, Delivered(shown))
    ensures FinishSend(Some(Json(p)), place.scope, p, Body(shown), UNDISTURBED) == (None, Delivered(shown))
  {
    hide Verified, ReadPending;
  }

  lemma ProperIsReadable(m: Minted, organizationId: Id)
    requires Proper(m, organizationId) && RecordLength(m.pending) <= MAX_RECORD
    ensures ReadPending(Some(Json(m.pending)), m.place.scope) == Found(m.pending)
  {
    hide Normalize, RecordLength;
  }

  lemma SlottedIsReadable(strip: string -> string, w: World, place: Place, p: PendingJournal)
    requires Inv(strip, w) && Slotted(w, place, p) && RecordLength(p) <= MAX_RECORD
    ensures ReadPending(SlotAt(w, place), place.scope) == Found(p) == ReadPending(Some(Json(p)), place.scope)
    ensures Normalize(p.payload.draft) == Some(p.payload.draft) && p.organizationId == w.db.organizationId
  {
    hide ServiceInv, HoldersSound, AnswersGenuine, CommitsKnown, Resolved, Deliveries, Normalize, RecordLength, Rid,
         ReadPending;
    assert Owned(w, place, p);
    assert Proper(w.minted[Rid(p)], w.db.organizationId);
    ProperIsReadable(w.minted[Rid(p)], w.db.organizationId);
  }

  lemma LookupSteps(strip: string -> string, w: World, tab: nat, place: Place, ctx: L.Context, answer: Answer,
                    at: Setting)
    ensures Next(strip, Next(strip, Next(strip, w, LookUp(tab, place)), ServeLookup(|w.messages|, ctx)),
                 Deliver(place, answer, at))
            == AfterDeliver(AfterServeLookup(AfterRecover(w, tab, place, true), |w.messages|, ctx), place, answer, at)
  {
    hide AfterServeLookup, AfterRecover, AfterDeliver;
  }

  lemma ResendSteps(strip: string -> string, w: World, tab: nat, place: Place, ctx: L.Context, entryId: Id,
                    answer: Answer, at: Setting)
    ensures Next(strip, Next(strip, Next(strip, w, Resend(tab, place)), Serve(|w.messages|, ctx, entryId)),
                 Deliver(place, answer, at))
            == AfterDeliver(AfterServe(strip, AfterRecover(w, tab, place, false), |w.messages|, ctx, entryId), place,
                            answer, at)
  {
    hide AfterServe, AfterRecover, AfterDeliver;
  }

  lemma LookedUp(w: World, place: Place, tab: nat, p: PendingJournal, ctx: L.Context)
    requires place !in w.holders && Slotted(w, place, p) && ReadPending(SlotAt(w, place), place.scope) == Found(p)
    ensures var w2, n := AfterServeLookup(AfterRecover(w, tab, place, true), |w.messages|, ctx), |w.messages|;
            && w2.slots == w.slots && w2.db == w.db && w2.holders == w.holders[place := Holder(tab, p, LookingUp(n))]
            && w2.delivered == w.delivered
            && n < |w2.messages| && w2.messages[n].fate == Answered(LookupAnswer(w.db, ctx, p))
  {
    hide ReadPending, LookupAnswer;
    var w1 := AfterRecover(w, tab, place, true);
    assert w1.messages[|w.messages|] == Message(place, p, true, InFlight);
  }

  lemma ResentAndServed(strip: string -> string, w: World, place: Place, tab: nat, p: PendingJournal, ctx: L.Context,
                        entryId: Id)
    requires place !in w.holders && Slotted(w, place, p) && ReadPending(SlotAt(w, place), place.scope) == Found(p)
    requires ParseJournal(strip, p.payload).Some?
    requires L.Post(w.db, ctx, ParseJournal(strip, p.payload).value, entryId).Done?
    ensures var w2, n := AfterServe(strip, AfterRecover(w, tab, place, false), |w.messages|, ctx, entryId),
            |w.messages|;
            var after := L.Post(w.db, ctx, ParseJournal(strip, p.payload).value, entryId);
            && w2.slots == w.slots && w2.db == after.db && w2.delivered == w.delivered
            && w2.holders == w.holders[place := Holder(tab, p, Resending(n))]
            && n < |w2.messages| && w2.messages[n].fate == Answered(Shown(after.db, after.id))
  {
    hide Render, ReadPending, ParseJournal, L.Post, Shown;
    var w1 := AfterRecover(w, tab, place, false);
    assert w1.messages[|w.messages|] == Message(place, p, false, InFlight);
  }

  lemma LookupFinds(strip: string -> string, w: World, place: Place, p: PendingJournal, ctx: L.Context, j: Id)
    requires Inv(strip, w) && Committed(w, place, p, j)
    requires L.Authorize(w.db, ctx, L.ReadJournals, ParseId(p.payload.draft.branchId), false).None?
    ensures LookupAnswer(w.db, ctx, p) == Body(Render(w.db, j))
  {
    hide TP.Sound, TP.Settled, HoldersSound, AnswersGenuine, Resolved, Deliveries, RecordsProper, Render, ParseLines,
         ParseDate, L.Authorize, Rid, Acknowledged, WellFormed, LinesInOf;
    assert Owned(w, place, p);
    RequestUnique(w.db);
    assert EntryGood(w.db, j);
  }

  /** The lookup of a committed command by a free tab, answered to a reader of its branch: the
      journal is shown and the slot cleared exactly when the browser recognizes it. */
  lemma LookupRecovers(strip: string -> string, w: World, place: Place, p: PendingJournal, tab: nat, ctx: L.Context,
                       j: Id)
    requires Inv(strip, w) && place !in w.holders && Committed(w, place, p, j) && RecordLength(p) <= MAX_RECORD
    requires L.Authorize(w.db, ctx, L.ReadJournals, ParseId(p.payload.draft.branchId), false).None?
    ensures var answer := Body(Render(w.db, j));
            var end := Execution(strip, w, [LookUp(tab, place), ServeLookup(|w.messages|, ctx),
                                            Deliver(place, answer, UNDISTURBED)]);
            && end.db == w.db && place !in end.holders
            && if Recognizable(strip, p, w.db, j)
               then place !in end.slots && Rid(p) in end.delivered && end.delivered[Rid(p)] == Render(w.db, j)
               else Slotted(end, place, p) && end.delivered == w.delivered
  {
    hide Inv, Verified, Render, Recognizable, ReadPending, RecordLength, L.Authorize, Rid, ParseId, Execution, Next,
         AfterServeLookup, AfterRecover, AfterDeliver, LookupAnswer, Normalize;
    var n, answer := |w.messages|, Body(Render(w.db, j));
    SlottedIsReadable(strip, w, place, p);
    CommittedVerifiesExactly(strip, w, place, p, j);
    LookupFinds(strip, w, place, p, ctx, j);
    ThreeSteps(strip, w, LookUp(tab, place), ServeLookup(n, ctx), Deliver(place, answer, UNDISTURBED));
    LookupSteps(strip, w, tab, place, ctx, answer, UNDISTURBED);
    LookedUp(w, place, tab, p, ctx);
    DeliveredAtEnd(AfterServeLookup(AfterRecover(w, tab, place, true), n, ctx), place, p, Render(w.db, j));
  }

  /** A resend that the server accepts, of a command in the ledger or not: the journal, old or
      new, is shown and the slot cleared exactly when the browser recognizes it. */
  lemma ResendRecovers(strip: string -> string, w: World, place: Place, p: PendingJournal, tab: nat, ctx: L.Context,
                       entryId: Id)
    requires Inv(strip, w) && place !in w.holders && Slotted(w, place, p) && RecordLength(p) <= MAX_RECORD
    requires ParseJournal(strip, p.payload).Some?
    requires L.Post(w.db, ctx, ParseJournal(strip, p.payload).value, entryId).Done?
    ensures var after := L.Post(w.db, ctx, ParseJournal(strip, p.payload).value, entryId);
            after.id in after.db.entries
            && var answer := Body(Render(after.db, after.id));
               var end := Execution(strip, w, [Resend(tab, place), Serve(|w.messages|, ctx, entryId),
                                               Deliver(place, answer, UNDISTURBED)]);
               && end.db == after.db && place !in end.holders
               && if Recognizable(strip, p, after.db, after.id)
                  then place !in end.slots && Rid(p) in end.delivered
                    && end.delivered[Rid(p)] == Render(after.db, after.id)
                  else Slotted(end, place, p) && end.delivered == w.delivered
  {
    hide ServiceInv, SlotsOwned, HoldersSound, AnswersGenuine, CommitsKnown, Resolved, Deliveries, RecordsProper,
         Verified, Render, Recognizable, ReadPending, RecordLength, ParseJournal, L.Post, Rid, AfterServe,
         AfterRecover, AfterDeliver, Execution, Next, Normalize;
    var n := |w.messages|;
    SlottedIsReadable(strip, w, place, p);
    PostedAnswerVerifies(strip, w.db, ctx, p, entryId);
    var after := L.Post(w.db, ctx, ParseJournal(strip, p.payload).value, entryId);
    var answer := Body(Render(after.db, after.id));
    ThreeSteps(strip, w, Resend(tab, place), Serve(n, ctx, entryId), Deliver(place, answer, UNDISTURBED));
    ResendSteps(strip, w, tab, place, ctx, entryId, answer, UNDISTURBED);
    ResentAndServed(strip, w, place, tab, p, ctx, entryId);
    DeliveredAtEnd(AfterServe(strip, AfterRecover(w, tab, place, false), n, ctx, entryId), place, p,
                   Render(after.db, after.id));
  }

  // ---------------------------------------------------------------- which commits can be shown

  /** Somebody may read the branch of every stored journal. */
  lemma ReaderExists(db: Db, j: Id)
    requires ServiceInv(db) && j in db.entries
    ensures L.Authorize(db, L.Context("", 0, {L.ReadJournals}, map[]), L.ReadJournals, db.entries[j].branch,
                        false).None?
  {
    hide TP.Sound, TP.Settled, WellFormed, Provenance;
    assert EntryGood(db, j);
  }

  lemma CommittedBranch(strip: string -> string, w: World, place: Place, p: PendingJournal, j: Id)
    requires Inv(strip, w) && Committed(w, place, p, j)
    ensures w.db.entries[j].branch == ParseId(p.payload.draft.branchId)
  {
    hide TP.Sound, TP.Settled, HoldersSound, AnswersGenuine, Resolved, Deliveries, RecordsProper, ParseLines,
         ParseDate, Rid, Acknowledged, WellFormed, LinesInOf;
    assert Owned(w, place, p);
    assert EntryGood(w.db, j);
  }

  lemma ShownByLookup(strip: string -> string, w: World, place: Place, p: PendingJournal, j: Id)
    requires Inv(strip, w) && place !in w.holders && Committed(w, place, p, j)
    requires RecordLength(p) <= MAX_RECORD && Recognizable(strip, p, w.db, j)
    ensures exists more :: Rid(p) in Execution(strip, w, more).delivered
  {
    hide Inv, Recognizable, RecordLength, Rid, Execution, L.Authorize, Render, ParseId, Slotted;
    var ctx := L.Context("", 0, {L.ReadJournals}, map[]);
    LedgerOf(strip, w);
    ReaderExists(w.db, j);
    CommittedBranch(strip, w, place, p, j);
    LookupRecovers(strip, w, place, p, 0, ctx, j);
  }

  /** Some continuation shows a recognizable committed journal: the tab at work gives up, and
      another one looks the command up. */
  lemma CanBeShown(strip: string -> string, w: World, place: Place, p: PendingJournal, j: Id)
    requires Inv(strip, w) && Committed(w, place, p, j) && RecordLength(p) <= MAX_RECORD
    requires Recognizable(strip, p, w.db, j)
    ensures exists more :: Rid(p) in Execution(strip, w, more).delivered
  {
    hide Inv, Recognizable, RecordLength, Rid, Execution, Next;
    var v := AfterAbandon(w, place);
    AbandonKeeps(strip, w, place);
    ShownByLookup(strip, v, place, p, j);
    var more :| Rid(p) in Execution(strip, v, more).delivered;
    AbandonFirst(strip, w, place);
    ExecutionConcat(strip, w, [Abandon(place)], more);
    assert Rid(p) in Execution(strip, w, [Abandon(place)] + more).delivered;
  }

  lemma AbandonFirst(strip: string -> string, w: World, place: Place)
    ensures Execution(strip, w, [Abandon(place)]) == AfterAbandon(w, place)
  {
    OneStep(strip, w, Abandon(place));
  }

  lemma LedgerOf(strip: string -> string, w: World)
    requires Inv(strip, w)
    ensures ServiceInv(w.db)
  {
    hide ServiceInv, SlotsOwned, HoldersSound, AnswersGenuine, CommitsKnown, Resolved, Deliveries, RecordsProper;
  }

  lemma SlottedIsNotDelivered(strip: string -> string, w: World, place: Place, p: PendingJournal)
    requires Inv(strip, w) && Slotted(w, place, p)
    ensures Rid(p) !in w.delivered
  {
    hide ServiceInv, HoldersSound, AnswersGenuine, CommitsKnown, Resolved, RecordsProper, Verified, Render, Rid;
    assert Owned(w, place, p);
    forall r | r in w.delivered
      ensures r in w.minted && !Held(w, r)
    {
      assert DeliveredSound(w, r);
    }
  }

  /** In every execution: a committed command whose success was not yet shown can still be
      shown exactly when its record is short enough to be read, its journal was posted under the
      confirming user, and the server left its texts alone; otherwise its slot is blocked in
      every continuation. */
  lemma CommittedIsShownExactly(strip: string -> string, db: Db, steps: seq<Step>, r: Id, j: Id, more: seq<Step>)
    requires ServiceInv(db)
    requires var w := Execution(strip, Start(db), steps);
             r in w.minted && j in w.db.entries && w.db.entries[j].requestId == r && r !in w.delivered
    ensures var w := Execution(strip, Start(db), steps);
            var p, place := w.minted[r].pending, w.minted[r].place;
            var showable := RecordLength(p) <= MAX_RECORD && Recognizable(strip, p, w.db, j);
            && ((exists onward :: r in Execution(strip, w, onward).delivered) <==> showable)
            && (!showable ==> Slotted(Execution(strip, w, more), place, p))
  {
    hide Inv, Recognizable, RecordLength, Execution, Rid, Slotted;
    StartSound(strip, db);
    ExecutionKeeps(strip, Start(db), steps);
    var w := Execution(strip, Start(db), steps);
    var p, place := w.minted[r].pending, w.minted[r].place;
    CommittedIsHeld(strip, w, r, j);
    if RecordLength(p) <= MAX_RECORD && Recognizable(strip, p, w.db, j) {
      CanBeShown(strip, w, place, p, j);
    } else {
      BlockedForEver(strip, w, place, p, j, more);
      forall onward
        ensures r !in Execution(strip, w, onward).delivered
      {
        BlockedForEver(strip, w, place, p, j, onward);
      }
    }
  }

  lemma CommittedIsHeld(strip: string -> string, w: World, r: Id, j: Id)
    requires Inv(strip, w) && r in w.minted && j in w.db.entries && w.db.entries[j].requestId == r && r !in w.delivered
    ensures Rid(w.minted[r].pending) == r && Committed(w, w.minted[r].place, w.minted[r].pending, j)
  {
    hide ServiceInv, HoldersSound, AnswersGenuine, CommitsKnown, Deliveries, RecordsProper, Rid;
    assert Held(w, r) || r in w.delivered || Dead(w, r);
  }

  lemma BlockedForEver(strip: string -> string, w: World, place: Place, p: PendingJournal, j: Id, more: seq<Step>)
    requires Inv(strip, w) && Committed(w, place, p, j)
    requires RecordLength(p) > MAX_RECORD || !Recognizable(strip, p, w.db, j)
    ensures Slotted(Execution(strip, w, more), place, p) && Rid(p) !in Execution(strip, w, more).delivered
  {
    hide Inv, Recognizable, RecordLength, Execution, Rid, Slotted;
    if RecordLength(p) > MAX_RECORD {
      OversizedBlocksForEver(strip, w, more, place, p);
    } else {
      UnrecognizedBlocksForEver(strip, w, more, place, p, j);
    }
    ExecutionKeeps(strip, w, more);
    SlottedIsNotDelivered(strip, Execution(strip, w, more), place, p);
  }

  /** With the server's own stripping the condition can be read off the confirmed draft. */
  lemma ShowableExactly(db: Db, steps: seq<Step>, r: Id, j: Id)
    requires ServiceInv(db)
    requires var w := Execution(Strip, Start(db), steps);
             r in w.minted && j in w.db.entries && w.db.entries[j].requestId == r && r !in w.delivered
    ensures var w := Execution(Strip, Start(db), steps);
            var p := w.minted[r].pending;
            (exists more :: r in Execution(Strip, w, more).delivered) <==>
            RecordLength(p) <= MAX_RECORD && !Alterable(p.payload) && ValidId(j) && w.db.entries[j].postedBy == p.userId
  {
    hide ServiceInv, SlotsOwned, HoldersSound, AnswersGenuine, CommitsKnown, Resolved, Deliveries, RecordLength,
         Execution, Rid, Alterable, TextsAgree, Normalize, ValidId;
    StartSound(Strip, db);
    ExecutionKeeps(Strip, Start(db), steps);
    var w := Execution(Strip, Start(db), steps);
    assert Proper(w.minted[r], w.db.organizationId);
    AlteredExactly(w.minted[r].pending.payload);
    CommittedIsShownExactly(Strip, db, steps, r, j, []);
  }

  // ---------------------------------------------------------------- how such commands come about

  /** A confirmation of an accepted draft in an empty slot, sent and served. */
  function FirstSteps(tab: nat, place: Place, draft: JournalDraft, newId: string, ctx: L.Context,
                      entryId: Id): seq<Step> {
    [Save(tab, place, draft, newId), Send(place), Serve(0, ctx, entryId)]
  }

  predicate Confirmable(db: Db, place: Place, draft: JournalDraft, newId: string) {
    && place.scope.organizationId == db.organizationId && draft.branchId == place.scope.branchId
    && Normalize(draft) == Some(draft) && ValidId(newId) && !L.RequestTaken(db, Lower(newId))
  }

  lemma SavedFirst(strip: string -> string, db: Db, tab: nat, place: Place, draft: JournalDraft, newId: string)
    requires Confirmable(db, place, draft, newId)
    ensures var w, p := Next(strip, Start(db), Save(tab, place, draft, newId)), NewPending(place.scope, draft, newId);
            && w.slots == map[place := Json(p)] && w.holders == map[place := Holder(tab, p, Confirming(None))]
            && w.messages == [] && w.db == db && w.minted == map[Lower(newId) := Minted(place, p)]
              && w.delivered == map[]
  {
    hide Normalize, RecordLength, L.RequestTaken, Lower, ValidId;
  }

  /** A record over the limit is reached in one step, and its slot is blocked from then on. */
  lemma OversizedIsReached(strip: string -> string, db: Db, tab: nat, place: Place, newId: string, more: seq<Step>)
    requires ServiceInv(db) && place.scope.branchId.None? && place.scope.organizationId == db.organizationId
    requires ValidId(newId) && !L.RequestTaken(db, Lower(newId))
    ensures var w, p := Execution(strip, Start(db), [Save(tab, place, LongDraft(), newId)]),
            NewPending(place.scope, LongDraft(), newId);
            Slotted(w, place, p) && RecordLength(p) > MAX_RECORD && Slotted(Execution(strip, w, more), place, p)
  {
    hide ServiceInv, Execution, Next, RecordLength, Normalize, ValidId, L.RequestTaken, Lower, Inv, LongLines;
    AcceptedDraftOverTheLimit(place.scope, newId);
    OneStep(strip, Start(db), Save(tab, place, LongDraft(), newId));
    SavedFirst(strip, db, tab, place, LongDraft(), newId);
    StartSound(strip, db);
    ExecutionKeeps(strip, Start(db), [Save(tab, place, LongDraft(), newId)]);
    OversizedBlocksForEver(strip, Execution(strip, Start(db), [Save(tab, place, LongDraft(), newId)]), more, place,
                           NewPending(place.scope, LongDraft(), newId));
  }

  /** If the server accepts the first copy of a payload whose texts it changes, the journal is
      in the ledger after three steps and its slot is blocked from then on. */
  lemma AlteredIsReached(strip: string -> string, db: Db, tab: nat, place: Place, draft: JournalDraft, newId: string,
                         ctx: L.Context, entryId: Id, more: seq<Step>)
    requires ServiceInv(db) && Confirmable(db, place, draft, newId)
    requires var p := Payload(draft, newId);
             && !TextsAgree(strip, p) && ParseJournal(strip, p).Some?
             && L.Post(db, ctx, ParseJournal(strip, p).value, entryId).Done?
    ensures var w, p := Execution(strip, Start(db), FirstSteps(tab, place, draft, newId, ctx, entryId)),
            NewPending(place.scope, draft, newId);
            && L.RequestTaken(w.db, Lower(newId)) && Slotted(w, place, p)
            && L.RequestTaken(Execution(strip, w, more).db, Lower(newId))
              && Slotted(Execution(strip, w, more), place, p)
            && Lower(newId) !in Execution(strip, w, more).delivered
  {
    hide ServiceInv, Execution, Next, TextsAgree, ParseJournal, L.Post, Confirmable, Inv, Lower, Render;
    var p := NewPending(place.scope, draft, newId);
    var steps := FirstSteps(tab, place, draft, newId, ctx, entryId);
    ThreeSteps(strip, Start(db), steps[0], steps[1], steps[2]);
    SavedFirst(strip, db, tab, place, draft, newId);
    ServedFirst(strip, Next(strip, Start(db), steps[0]), place, p, ctx, entryId);
    StartSound(strip, db);
    ExecutionKeeps(strip, Start(db), steps);
    var w := Execution(strip, Start(db), steps);
    PostedUnderId(db, ctx, ParseJournal(strip, p.payload).value, entryId);
    ParsedRequest(strip, p);
    var j := L.Post(db, ctx, ParseJournal(strip, p.payload).value, entryId).id;
    UnrecognizedBlocksForEver(strip, w, more, place, p, j);
    BlockedForEver(strip, w, place, p, j, more);
  }

  lemma ParsedRequest(strip: string -> string, p: PendingJournal)
    requires ParseJournal(strip, p.payload).Some?
    ensures ParseJournal(strip, p.payload).value.requestId == Rid(p)
  {
    hide ParseLines, ParseDate, Lower;
  }

  lemma ServedFirst(strip: string -> string, w: World, place: Place, p: PendingJournal, ctx: L.Context, entryId: Id)
    requires w.slots == map[place := Json(p)] && w.messages == []
    requires place in w.holders && w.holders[place].pending == p && w.holders[place].activity == Confirming(None)
    requires ParseJournal(strip, p.payload).Some?
    requires L.Post(w.db, ctx, ParseJournal(strip, p.payload).value, entryId).Done?
    ensures var v := Next(strip, Next(strip, w, Send(place)), Serve(0, ctx, entryId));
            v.slots == w.slots && v.db == L.Post(w.db, ctx, ParseJournal(strip, p.payload).value, entryId).db
  {
    hide ParseJournal, L.Post, Shown;
    var sent := Next(strip, w, Send(place));
    assert sent.messages[0] == Message(place, p, false, InFlight);
  }
}
