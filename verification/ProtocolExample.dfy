/** A complete example of a committed journal that can never be shown: an account is opened, a
    journal on it is confirmed with the account's id in capital letters, and it is posted. */
module ProtocolExample {
  import opened Base
  import opened DecimalText
  import opened WireText
  import opened JournalForm
  import opened JournalCommand
  import opened Tables
  import L = Ledger
  import opened LedgerProofs
  import opened LedgerTheorems
  import opened Wire
  import opened Protocol
  import opened ProtocolRecovery

  const SAMPLE_ORGANIZATION := "00000000-0000-0000-0000-000000000000"

  function SampleContext(): L.Context { L.Context(SampleId(), 0, {L.ManageAccounts, L.PostJournals}, map[]) }

  function SampleOpenAccount(): L.Command {
    L.DoCreateAccount(SampleContext(), L.AccountIn("1000", Asset, None, true), Lower(CapitalId()))
  }

  /** An organization with one account. */
  ghost function SampleLedger(): Db { L.Run(EmptyDb(SAMPLE_ORGANIZATION, "SAR", 20261007), [SampleOpenAccount()]) }

  function SamplePlace(): Place { Place(0, CommandScope(SampleId(), SAMPLE_ORGANIZATION, None)) }

  function CapitalDraft(): JournalDraft { SampleDraft(CapitalId(), "2026-10-07", "note") }

  lemma SampleLedgerIs()
    ensures SampleLedger() == EmptyDb(SAMPLE_ORGANIZATION, "SAR", 20261007).(
                                accounts := map[Lower(CapitalId()) := Account("1000", Asset, None, true, true, 0)],
                                  accountsCreated := 1)
    ensures ServiceInv(SampleLedger())
  {
    hide ServiceInv, Lower, CapitalId;
    var db0, cmds := EmptyDb(SAMPLE_ORGANIZATION, "SAR", 20261007), [SampleOpenAccount()];
    EmptyInv(SAMPLE_ORGANIZATION, "SAR", 20261007);
    RunKeeps(db0, cmds);
    assert cmds[..0] == [] && L.Run(db0, []) == db0;
    assert L.Run(db0, cmds) == L.Step(db0, SampleOpenAccount());
  }

  lemma CapitalDraftReads()
    ensures Normalize(CapitalDraft()) == Some(CapitalDraft())
    ensures forall id :: !TextsAgree(Strip, Payload(CapitalDraft(), id))
    ensures Strip("note") == "note" && ParseDate("2026-10-07") == Some(20261007)
  {
    hide Normalize, TextsAgree, ValidDate;
    forall id
      ensures !TextsAgree(Strip, Payload(CapitalDraft(), id))
    {
      CapitalIdsAccepted(Strip, id);
    }
    CapitalIdsAccepted(Strip, "");
    StripSettles("note");
    SampleDate();
    SampleDateValue();
  }

  lemma SampleDateValue()
    ensures ParseDate("2026-10-07") == Some(20261007)
  {
    hide DigitsValue;
    SampleDate();
    var s := "2026-10-07";
    assert s[..4] == ['2', '0'] + ['2', '6'] && s[5..7] == ['1', '0'] && s[8..] == ['0', '7'];
    TwoDigitsValue('2', '0');
    TwoDigitsValue('2', '6');
    TwoDigitsValue('1', '0');
    TwoDigitsValue('0', '7');
    DigitsValueConcat(['2', '0'], ['2', '6']);
    assert Pow10(2) == 100 by { assert Pow10(1) == 10; }
  }

  function ReadCapital(newId: string): JournalIn {
    JournalIn(Lower(newId), None, 20261007, "note",
              [LineIn(Lower(CapitalId()), 100, 0, None), LineIn(Lower(CapitalId()), 0, 100, None)])
  }

  lemma CapitalDraftParses(newId: string)
    ensures ParseJournal(Strip, Payload(CapitalDraft(), newId)) == Some(ReadCapital(newId))
    ensures L.ValidJournal(ReadCapital(newId))
  {
    hide JournalCents, Lower, Strip, ParseDate, CapitalId, ParseLines, Normalize, TextsAgree, L.DebitTotal,
         L.CreditTotal;
    CapitalDraftReads();
    SmallAmounts();
    var lines := CapitalDraft().lines;
    NormalLines(CapitalDraft());
    NormalLinesRead(Strip, lines);
    ParseLinesPointwise(Strip, lines);
    assert ParseLines(Strip, lines).value == ReadCapital(newId).lines;
    TwoLineTotals(ReadCapital(newId).lines);
  }

  lemma TwoLineTotals(lines: seq<LineIn>)
    requires |lines| == 2
    ensures L.DebitTotal(lines) == lines[0].debit + lines[1].debit
    ensures L.CreditTotal(lines) == lines[0].credit + lines[1].credit
  {
    var one := lines[..1];
    assert one[..0] == [] && one[0] == lines[0];
    assert L.DebitTotal([]) == 0 && L.CreditTotal([]) == 0;
    assert L.DebitTotal(one) == lines[0].debit && L.CreditTotal(one) == lines[0].credit;
  }

  lemma CapitalDraftConfirmable(newId: string)
    requires ValidId(newId)
    ensures Confirmable(SampleLedger(), SamplePlace(), CapitalDraft(), newId)
  {
    hide ServiceInv, Normalize, Lower, SampleLedger, TextsAgree, CapitalId, ValidId, Strip, ParseDate;
    CapitalDraftReads();
    SampleLedgerIs();
  }

  lemma CapitalDraftPosts(newId: string, entryId: Id)
    ensures L.Post(SampleLedger(), SampleContext(), ReadCapital(newId), entryId).Done?
  {
    hide ServiceInv, Lower, L.ValidJournal, L.Post, SampleLedger, CapitalId, ParseJournal, CapitalDraft;
    CapitalDraftParses(newId);
    SampleLedgerIs();
    PostsExactly(SampleLedger(), SampleContext(), ReadCapital(newId), entryId);
  }

  /** A complete example: an account is opened, a journal on it is confirmed with the account's
      id in capital letters, sent and posted; in no continuation is its success ever shown, and
      the user's slot is blocked. */
  lemma CapitalLettersBlockForEver(newId: string, entryId: Id, more: seq<Step>)
    requires ValidId(newId)
    ensures var w := Execution(Strip, Start(SampleLedger()),
                               FirstSteps(0, SamplePlace(), CapitalDraft(), newId, SampleContext(), entryId));
            && L.RequestTaken(w.db, Lower(newId))
            && Slotted(Execution(Strip, w, more), SamplePlace(), NewPending(SamplePlace().scope, CapitalDraft(), newId))
            && Lower(newId) !in Execution(Strip, w, more).delivered
  {
    hide ServiceInv, Execution, Normalize, Lower, L.Post, SampleLedger, TextsAgree, CapitalId, ValidId, Confirmable,
         CapitalDraft, ReadCapital, ParseJournal, L.RequestTaken, Slotted;
    CapitalDraftReads();
    CapitalDraftParses(newId);
    CapitalDraftConfirmable(newId);
    CapitalDraftPosts(newId, entryId);
    SampleLedgerIs();
    AlteredIsReached(Strip, SampleLedger(), 0, SamplePlace(), CapitalDraft(), newId, SampleContext(), entryId, more);
  }
}
