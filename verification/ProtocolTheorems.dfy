/** What the protocol promises over every execution from an empty set of browsers and any
    reachable ledger. */
module ProtocolTheorems {
  import opened Base
  import opened WireText
  import opened JournalForm
  import opened JournalCommand
  import opened Tables
  import TP = TriggerProofs
  import L = Ledger
  import opened LedgerProofs
  import opened LedgerTheorems
  import opened Wire
  import opened Protocol
  import opened ProtocolProofs

  // ---------------------------------------------------------------- the server's answers

  /** What a copy that reaches the server is answered: a payload it cannot read 422, a refusal its
      status, and a success the stored journal as journal_dict prints it; only a success changes
      the ledger, and only this copy's fate changes among the messages. */
  lemma ServedExactly(strip: string -> string, w: World, i: nat, ctx: L.Context, entryId: Id)
    requires Pend(w, i, false)
    ensures var v, q := Next(strip, w, Serve(i, ctx, entryId)), ParseJournal(strip, w.messages[i].pending.payload);
            && |v.messages| == |w.messages|
            && v == w.(db := v.db, messages := v.messages)
            && (forall k :: 0 <= k < |w.messages| && k != i ==> v.messages[k] == w.messages[k])
            && v.messages[i] == Message(w.messages[i].place, w.messages[i].pending, false, v.messages[i].fate)
            && (q.None? ==> v.messages[i].fate == Answered(Status(422)) && v.db == w.db)
            && (q.Some? ==>
                  var reply := L.Post(w.db, ctx, q.value, entryId);
                  if reply.Done? then
                    reply.id in reply.db.entries && v.db == reply.db
                    && v.messages[i].fate == Answered(Body(Render(reply.db, reply.id)))
                  else
                    && v.db == w.db
                    && v.messages[i].fate == Answered(Status(if reply.error == L.Invalid then 422
                                                             else if reply.error == L.Forbidden then 403
                                                             else if reply.error == L.NotFound then 404
                                                             else if reply.error == L.Conflict then 409 else 500)))
  {
    hide L.Post, ParseJournal, Render;
    var q := ParseJournal(strip, w.messages[i].pending.payload);
    if q.Some? && L.Post(w.db, ctx, q.value, entryId).Done? {
      PostHolds(w.db, ctx, q.value, entryId);
    }
  }

  /** A stored journal carries this request in this branch. */
  predicate Carries(db: Db, j: Id, requestId: Id, branch: Option<Id>) {
    j in db.entries && db.entries[j].requestId == requestId && db.entries[j].branch == branch
  }

  /** What a lookup is answered: who may not read journals in the branch learns nothing about the
      request; the others get the journal stored under it in that branch, or 404. */
  lemma LookedUpExactly(strip: string -> string, w: World, i: nat, ctx: L.Context)
    requires ServiceInv(w.db) && Pend(w, i, true)
    ensures var v, p := Next(strip, w, ServeLookup(i, ctx)), w.messages[i].pending;
            var branch := ParseId(p.payload.draft.branchId);
            var access := L.Authorize(w.db, ctx, L.ReadJournals, branch, false);
            && v == w.(messages := v.messages) && |v.messages| == |w.messages|
            && (access == Some(L.NotFound) ==> v.messages[i].fate == Answered(Status(404)))
            && (access == Some(L.Forbidden) ==> v.messages[i].fate == Answered(Status(403)))
            && (access == None ==>
                  && (forall j :: Carries(w.db, j, Lower(p.payload.requestId), branch) ==>
                        v.messages[i].fate == Answered(Body(Render(w.db, j))))
                  && ((forall j :: !Carries(w.db, j, Lower(p.payload.requestId), branch)) ==>
                        v.messages[i].fate == Answered(Status(404))))
  {
    hide TP.Sound, TP.Settled, EntryGood, Render, Lower, L.Authorize;
    RequestUnique(w.db);
    var p := w.messages[i].pending;
    assert forall j :: Carries(w.db, j, Rid(p), ParseId(p.payload.draft.branchId)) <==>
        j in w.db.entries && w.db.entries[j].requestId == Rid(p)
        && w.db.entries[j].branch == ParseId(p.payload.draft.branchId);
  }

  /** A delivered answer empties a slot that holds the readable record, in the unchanged session and
      if the storage lets it be removed, exactly when it is a verified journal, or one of five
      rejections of a first attempt; the lock is free in any case. */
  lemma DeliveryEmptiesExactly(strip: string -> string, w: World, place: Place, answer: Answer, at: Setting)
    requires place in w.holders && Refusal(w, w.holders[place].activity) == Some(answer)
    requires ReadPending(SlotAt(w, place), place.scope) == Found(w.holders[place].pending)
    ensures var h, v := w.holders[place], Next(strip, w, Deliver(place, answer, at));
            && place !in v.holders
            && (place !in v.slots <==>
                  && at.contextHolds && at.removes
                  && ((answer.Body? && Verified(answer.journal, h.pending))
                      || (h.activity.Confirming? && answer.Status? && answer.code in {400, 403, 404, 413, 422})))
  {
    hide Verified, Normalize, RecordLength, ValidId;
    var p := w.holders[place].pending;
    ConfirmClearsExactly(place.scope, p, answer, at);
    RecoveryClearsExactly(place.scope, p, answer, at);
  }

  // ---------------------------------------------------------------- exactly once

  /** However often a confirmed command is sent, resent and served, and whatever is lost or
      delayed, the ledger holds at most one journal under its request id, and that journal
      shows exactly the confirmed payload. */
  lemma ExactlyOnce(strip: string -> string, db: Db, steps: seq<Step>, r: Id, j: Id)
    requires ServiceInv(db)
    requires var w := Execution(strip, Start(db), steps);
             r in w.minted && j in w.db.entries && w.db.entries[j].requestId == r
    ensures var w := Execution(strip, Start(db), steps);
            && (forall k :: k in w.db.entries && w.db.entries[k].requestId == r ==> k == j)
            && Confirmed(strip, w, r).Some?
            && Shows(w.db, j, Confirmed(strip, w, r).value)
  {
    hide Execution, ParseJournal, TP.Sound, TP.Settled, SlotsOwned, HoldersSound, AnswersGenuine, Resolved, Deliveries,
         WellFormed, LinesInOf, RecordsProper;
    StartSound(strip, db);
    ExecutionKeeps(strip, Start(db), steps);
    var w := Execution(strip, Start(db), steps);
    RequestUnique(w.db);
    assert EntryGood(w.db, j);
  }

  // ---------------------------------------------------------------- nothing is forgotten

  /** A committed command whose success was never shown is still in its slot. */
  lemma NoCommitForgotten(strip: string -> string, db: Db, steps: seq<Step>, r: Id)
    requires ServiceInv(db)
    requires var w := Execution(strip, Start(db), steps);
             r in w.minted && L.RequestTaken(w.db, r) && r !in w.delivered
    ensures Held(Execution(strip, Start(db), steps), r)
  {
    hide Execution, ServiceInv, SlotsOwned, HoldersSound, AnswersGenuine, CommitsKnown, Deliveries, L.RequestTaken,
         RecordsProper;
    StartSound(strip, db);
    ExecutionKeeps(strip, Start(db), steps);
  }

  /** Rejected for good: out of its slot, not in the ledger, and no copy left on the way. */
  ghost predicate Gone(w: World, r: Id) { r in w.minted && !Held(w, r) && Dead(w, r) }

  /** A message leaves only for a record that is in its slot. */
  lemma LaunchKeepsGone(w: World, place: Place, tab: nat, p: PendingJournal, lookup: bool, activity: Activity, r: Id)
    requires Gone(w, r) && Owned(w, place, p) && place in w.slots && w.slots[place] == Json(p)
    ensures Gone(Launch(w, place, tab, p, lookup, activity), r)
  {
    hide Rid;
  }

  lemma AnsweringKeepsGone(w: World, i: nat, a: Answer, db: Db, r: Id)
    requires Gone(w, r) && i < |w.messages|
    requires L.RequestTaken(db, r) ==> L.RequestTaken(w.db, r)
    ensures Gone(Answering(w, i, a).(db := db), r)
  {
    hide Rid, L.RequestTaken;
  }

  lemma TakenOnlyBy(db: Db, later: Db, r: Id, own: Option<Id>)
    requires Grows(db, later) && AddsOnly(db, later, own) && own != Some(r)
    ensures L.RequestTaken(later, r) ==> L.RequestTaken(db, r)
  {
    hide Render;
  }

  lemma ServeKeepsGone(strip: string -> string, w: World, i: nat, ctx: L.Context, entryId: Id, r: Id)
    requires Inv(strip, w) && Gone(w, r)
    ensures Gone(AfterServe(strip, w, i, ctx, entryId), r)
  {
    hide ServiceInv, SlotsOwned, HoldersSound, AnswersGenuine, CommitsKnown, Resolved, Deliveries, L.Post, Render,
         ParseLines, ParseDate, L.RequestTaken, Answering, Held, RecordsProper;
    if Pend(w, i, false) {
      var m := w.messages[i];
      match ParseJournal(strip, m.pending.payload) {
        case None => PlainAnswerKeepsGone(w, i, Status(422), r);
        case Some(q) =>
          match L.Post(w.db, ctx, q, entryId) {
            case Refused(e) => PlainAnswerKeepsGone(w, i, Status(StatusOf(e)), r);
            case Done(after, j) =>
              PostedUnderId(w.db, ctx, q, entryId);
              assert !CopyOf(m, r);
              TakenOnlyBy(w.db, after, r, Some(q.requestId));
              AnsweringKeepsGone(w, i, Shown(after, j), after, r);
          }
      }
    }
  }

  lemma PlainAnswerKeepsGone(w: World, i: nat, a: Answer, r: Id)
    requires Gone(w, r) && i < |w.messages|
    ensures Gone(Answering(w, i, a), r)
  {
    hide Dead, Held, L.RequestTaken;
    AnsweringKeepsGone(w, i, a, w.db, r);
    assert Answering(w, i, a).(db := w.db) == Answering(w, i, a);
  }

  lemma SaveKeepsGone(strip: string -> string, w: World, tab: nat, place: Place, draft: JournalDraft, newId: string,
                      r: Id)
    requires Inv(strip, w) && Gone(w, r)
    ensures Gone(AfterSave(w, tab, place, draft, newId), r)
  {
    hide ServiceInv, HoldersSound, AnswersGenuine, CommitsKnown, Resolved, Deliveries, Normalize, ReadPending,
         L.RequestTaken, Lower, RecordsProper;
  }

  lemma GarbleKeepsGone(strip: string -> string, w: World, step: Step, r: Id)
    requires step.Garble? && Gone(w, r)
    ensures Gone(Next(strip, w, step), r)
  {
    hide Normalize, ReadPending, L.RequestTaken, Rid;
  }

  lemma MovesKeepGone(strip: string -> string, w: World, step: Step, r: Id)
    requires Inv(strip, w) && Gone(w, r)
    requires step.Send? || step.Resend? || step.LookUp? || step.Renew?
    ensures Gone(Next(strip, w, step), r)
  {
    hide ServiceInv, AnswersGenuine, CommitsKnown, Resolved, Deliveries, Launch, Rid, ReadPending, Gone, FirstAttempt,
         RecordsProper;
    if step.Resend? || step.LookUp? {
      if ReadPending(SlotAt(w, step.place), step.place.scope).Found? {
        FoundInSlot(w, step.place);
      }
    }
    forall place, tab, p, lookup, activity | Owned(w, place, p) && place in w.slots && w.slots[place] == Json(p)
      ensures Gone(Launch(w, place, tab, p, lookup, activity), r)
    {
      LaunchKeepsGone(w, place, tab, p, lookup, activity, r);
    }
    if step.place in w.holders {
      assert HolderSound(w, step.place);
    }
  }

  lemma DeliverKeepsGone(strip: string -> string, w: World, place: Place, answer: Answer, at: Setting, r: Id)
    requires Inv(strip, w) && Gone(w, r)
    ensures Gone(AfterDeliver(w, place, answer, at), r)
  {
    hide ServiceInv, AnswersGenuine, CommitsKnown, Resolved, Deliveries, Rid, ReadPending, FirstAttempt, Finish,
         L.RequestTaken, RecordsProper;
    if place in w.holders {
      assert HolderSound(w, place);
      FinishOutcomes(place, w.holders[place], answer, at);
    }
  }

  lemma CutKeepsGone(strip: string -> string, w: World, place: Place, code: int, at: Setting, r: Id)
    requires Inv(strip, w) && Gone(w, r)
    ensures Gone(AfterCut(w, place, code, at), r)
  {
    hide ServiceInv, SlotsOwned, HoldersSound, AnswersGenuine, CommitsKnown, Resolved, Deliveries, RecordsProper, Rid,
         AfterCut, L.RequestTaken;
    if AfterCut(w, place, code, at) != w {
      CutIsAbandon(strip, w, place, code, at);
    }
  }

  lemma NextKeepsGone(strip: string -> string, w: World, step: Step, r: Id)
    requires Inv(strip, w) && Gone(w, r)
    ensures Gone(Next(strip, w, step), r)
  {
    hide Inv, AfterSave, AfterSend, AfterRecover, AfterServe, AfterRenew, AfterDeliver, AfterCut, L.RequestTaken,
         L.Step, Grows, AddsOnly, LookupAnswer, Answering;
    match step {
      case Save(tab, place, draft, newId) => SaveKeepsGone(strip, w, tab, place, draft, newId, r);
      case Garble(_, _) => GarbleKeepsGone(strip, w, step, r);
      case Send(_) => MovesKeepGone(strip, w, step, r);
      case Resend(_, _) => MovesKeepGone(strip, w, step, r);
      case LookUp(_, _) => MovesKeepGone(strip, w, step, r);
      case Renew(_) => MovesKeepGone(strip, w, step, r);
      case Serve(i, ctx, entryId) => ServeKeepsGone(strip, w, i, ctx, entryId, r);
      case ServeLookup(i, ctx) =>
        if Pend(w, i, true) {
          PlainAnswerKeepsGone(w, i, LookupAnswer(w.db, ctx, w.messages[i].pending), r);
        }
      case Reject(i, code) =>
        if i < |w.messages| && w.messages[i].fate == InFlight {
          PlainAnswerKeepsGone(w, i, Status(code), r);
        }
      case Deliver(place, answer, at) => DeliverKeepsGone(strip, w, place, answer, at, r);
      case Cut(place, code, at) => CutKeepsGone(strip, w, place, code, at, r);
      case Abandon(_) =>
      case Elsewhere(cmd) => ElsewhereKeepsGone(strip, w, cmd, r);
    }
  }

  lemma ElsewhereKeepsGone(strip: string -> string, w: World, cmd: L.Command, r: Id)
    requires Inv(strip, w) && Gone(w, r)
    ensures Gone(AfterElsewhere(w, cmd), r)
  {
    hide ServiceInv, SlotsOwned, HoldersSound, AnswersGenuine, CommitsKnown, Resolved, Deliveries, L.RequestTaken,
         L.Step, Grows, AddsOnly, RequestOf, RecordsProper;
    CommandGrows(w.db, cmd);
    CommandAdds(w.db, cmd);
    if RequestOf(cmd) != Some(r) {
      TakenOnlyBy(w.db, L.Step(w.db, cmd), r, RequestOf(cmd));
    }
  }

  /** A rejected command never commits, however the execution goes on. */
  lemma {:induction false} GoneForEver(strip: string -> string, w: World, steps: seq<Step>, r: Id)
    requires Inv(strip, w) && Gone(w, r)
    ensures Gone(Execution(strip, w, steps), r)
  {
    hide Inv, Next, Gone;
    if steps != [] {
      var front := steps[..|steps| - 1];
      GoneForEver(strip, w, front, r);
      ExecutionKeeps(strip, w, front);
      NextKeepsGone(strip, Execution(strip, w, front), steps[|steps| - 1], r);
    }
  }

  /** A slot is emptied by a delivery at its own place and by nothing else, and then either
      a verified journal of the ledger was shown, or the command is rejected and stays out of
      the ledger in every continuation. */
  lemma SlotEmptiedOnlyFor(strip: string -> string, db: Db, steps: seq<Step>, step: Step, place: Place, more: seq<Step>)
    requires ServiceInv(db)
    requires var w := Execution(strip, Start(db), steps);
             place in w.slots && place !in Next(strip, w, step).slots
    ensures var w := Execution(strip, Start(db), steps);
            var after := Next(strip, w, step);
            && step.Deliver? && step.place == place && w.slots[place].Json?
            && var p := w.slots[place].record;
               || (&& Rid(p) in after.delivered && Verified(after.delivered[Rid(p)], p)
                   && exists j :: j in after.db.entries && after.delivered[Rid(p)] == Render(after.db, j))
               || !L.RequestTaken(Execution(strip, after, more).db, Rid(p))
  {
    hide Execution, Next, Inv, Render, Verified, Rid, L.RequestTaken;
    StartSound(strip, db);
    ExecutionKeeps(strip, Start(db), steps);
    var w := Execution(strip, Start(db), steps);
    var after := Next(strip, w, step);
    NextKeeps(strip, w, step);
    OnlyDeliveryEmpties(strip, w, step, place);
    var p := w.slots[place].record;
    EmptiedIsResolved(strip, w, step, place);
    if Rid(p) !in after.delivered {
      GoneForEver(strip, after, more, Rid(p));
    }
  }

  lemma OnlyDeliveryEmpties(strip: string -> string, w: World, step: Step, place: Place)
    requires Inv(strip, w) && place in w.slots && place !in Next(strip, w, step).slots
    ensures step.Deliver? && step.place == place
    ensures w.slots[place].Json? && Owned(w, place, w.slots[place].record)
  {
    hide ServiceInv, AnswersGenuine, CommitsKnown, Resolved, Deliveries, RecordsProper, ReadPending, Normalize, Finish,
         ParseJournal, L.Post, Rid, LookupAnswer, L.Step, Shown, FirstAttempt, L.RequestTaken, Refusal, StatusOf;
    if step.Cut? && Next(strip, w, step) != w {
      CutIsAbandon(strip, w, step.place, step.code, step.at);
    }
    if step.Deliver? && step.place in w.holders {
      assert HolderSound(w, step.place);
    }
  }

  lemma EmptiedIsResolved(strip: string -> string, w: World, step: Step, place: Place)
    requires step.Deliver? && place in w.slots && w.slots[place].Json? && Owned(w, place, w.slots[place].record)
    requires Inv(strip, w) && Inv(strip, Next(strip, w, step)) && place !in Next(strip, w, step).slots
    ensures var after, r := Next(strip, w, step), Rid(w.slots[place].record);
            if r in after.delivered then DeliveredSound(after, r) && after.minted[r].pending == w.slots[place].record
            else Gone(after, r)
  {
    hide ServiceInv, HoldersSound, AnswersGenuine, CommitsKnown, ReadPending, Finish, Rid, Verified, Render, Dead,
         SlotsOwned, RecordsProper;
    var after, r := Next(strip, w, step), Rid(w.slots[place].record);
    assert after.minted == w.minted;
    assert !Held(after, r);
    if r in after.delivered {
      assert DeliveredSound(after, r);
    }
  }

  /** A new command is confirmed at a place only when every earlier one there is settled: its
      success was shown, or it will never be in the ledger. */
  lemma NoSecondCommandWhileUnresolved(strip: string -> string, db: Db, steps: seq<Step>, tab: nat, place: Place,
                                       draft: JournalDraft,
                                       newId: string, r: Id, more: seq<Step>)
    requires ServiceInv(db)
    requires var w := Execution(strip, Start(db), steps);
             && AfterSave(w, tab, place, draft, newId) != w
             && r in w.minted && w.minted[r].place == place
    ensures var w := Execution(strip, Start(db), steps);
            || (r in w.delivered && L.RequestTaken(w.db, r))
            || !L.RequestTaken(Execution(strip, AfterSave(w, tab, place, draft, newId), more).db, r)
  {
    hide Execution, ServiceInv, Normalize, L.RequestTaken, Verified, Render, HoldersSound, AnswersGenuine,
         CommitsKnown, RecordLength, RecordsProper;
    StartSound(strip, db);
    ExecutionKeeps(strip, Start(db), steps);
    var w := Execution(strip, Start(db), steps);
    NothingIsEmpty(w, place);
    if r in w.delivered {
      assert DeliveredSound(w, r);
      DeliveredIsTaken(w, r);
    } else {
      assert Gone(w, r);
      SaveKeeps(strip, w, tab, place, draft, newId);
      SaveKeepsGone(strip, w, tab, place, draft, newId, r);
      GoneForEver(strip, AfterSave(w, tab, place, draft, newId), more, r);
    }
  }

  lemma DeliveredIsTaken(w: World, r: Id)
    requires r in w.delivered && DeliveredSound(w, r)
    ensures L.RequestTaken(w.db, r)
  {
    hide Verified, Render;
  }

  // ---------------------------------------------------------------- what the user was shown

  /** Only a delivery changes what was shown, and only for a command still in its slot. */
  lemma NextKeepsDelivered(strip: string -> string, w: World, step: Step, r: Id)
    requires Inv(strip, w) && r in w.delivered
    ensures r in Next(strip, w, step).delivered && Next(strip, w, step).delivered[r] == w.delivered[r]
    ensures r in w.minted && r in Next(strip, w, step).minted && Next(strip, w, step).minted[r] == w.minted[r]
  {
    hide ServiceInv, AnswersGenuine, CommitsKnown, Resolved, SlotsOwned, HoldersSound, Rid, Verified, Render, Held,
         RecordsProper;
    assert DeliveredSound(w, r);
    MintedKept(strip, w, step, r);
    if step.Deliver? {
      DeliverKeepsDelivered(strip, w, step.place, step.answer, step.at, r);
    } else {
      OthersKeepDelivered(strip, w, step);
    }
  }

  lemma MintedKept(strip: string -> string, w: World, step: Step, r: Id)
    requires r in w.minted
    ensures r in Next(strip, w, step).minted && Next(strip, w, step).minted[r] == w.minted[r]
  {
    hide ReadPending, Normalize, Finish, ParseJournal, L.Post, LookupAnswer, L.Step, Shown, L.RequestTaken, Refusal,
         StatusOf;
  }

  lemma OthersKeepDelivered(strip: string -> string, w: World, step: Step)
    requires !step.Deliver?
    ensures Next(strip, w, step).delivered == w.delivered
  {
    hide ReadPending, Normalize, ParseJournal, L.Post, LookupAnswer, L.Step, Shown, L.RequestTaken, Refusal, StatusOf;
  }

  lemma DeliverKeepsDelivered(strip: string -> string, w: World, place: Place, answer: Answer, at: Setting, r: Id)
    requires SlotsOwned(w) && HoldersSound(w) && r in w.delivered && r in w.minted && !Held(w, r)
    ensures r in AfterDeliver(w, place, answer, at).delivered
    ensures AfterDeliver(w, place, answer, at).delivered[r] == w.delivered[r]
  {
    hide Finish, FirstAttempt, Refusal, Rid;
    if place in w.holders {
      assert HolderSound(w, place);
      assert Owned(w, place, w.holders[place].pending);
    }
  }

  lemma {:induction false} ExecutionKeepsDelivered(strip: string -> string, w: World, steps: seq<Step>, r: Id)
    requires Inv(strip, w) && r in w.delivered
    ensures Inv(strip, Execution(strip, w, steps))
    ensures var later := Execution(strip, w, steps);
            r in later.delivered && later.delivered[r] == w.delivered[r] && r in later.minted
              && later.minted[r] == w.minted[r]
  {
    hide Inv, Next;
    MintedWhenDelivered(strip, w, r);
    if steps != [] {
      var front := steps[..|steps| - 1];
      ExecutionKeepsDelivered(strip, w, front, r);
      NextKeeps(strip, Execution(strip, w, front), steps[|steps| - 1]);
      NextKeepsDelivered(strip, Execution(strip, w, front), steps[|steps| - 1], r);
    }
  }

  lemma MintedWhenDelivered(strip: string -> string, w: World, r: Id)
    requires Inv(strip, w) && r in w.delivered
    ensures r in w.minted
  {
    hide ServiceInv, SlotsOwned, HoldersSound, AnswersGenuine, CommitsKnown, Resolved, Verified, Render, RecordsProper;
    assert DeliveredSound(w, r);
  }

  /** A shown success is the confirmed payload, and the journal that was shown is in the
      ledger, as shown, in every continuation. */
  lemma ShownIsInLedgerForEver(strip: string -> string, db: Db, steps: seq<Step>, more: seq<Step>, r: Id)
    requires ServiceInv(db) && r in Execution(strip, Start(db), steps).delivered
    ensures var w := Execution(strip, Start(db), steps);
            var later := Execution(strip, w, more);
            && r in w.minted && Verified(w.delivered[r], w.minted[r].pending)
            && exists j ::
                 && j in later.db.entries && later.db.entries[j].requestId == r
                 && Render(later.db, j) == w.delivered[r]
  {
    hide Execution, ServiceInv, SlotsOwned, HoldersSound, AnswersGenuine, CommitsKnown, Resolved, Verified, Render,
         RecordsProper;
    StartSound(strip, db);
    ExecutionKeeps(strip, Start(db), steps);
    var w := Execution(strip, Start(db), steps);
    ExecutionKeepsDelivered(strip, w, more, r);
    assert DeliveredSound(Execution(strip, w, more), r);
    assert DeliveredSound(w, r);
  }
}
