# A verified model of the ledger and its confirmed journal command

The project models, in Dafny, the accounting and billing core of a merchant back office and the
browser code that sends journals to it.

* **Money and text** (`DecimalText`, `Rounding`, `Vat`, `DraftMoney`, `WireText`): amounts as decimal
  strings and as whole minor units, the four independent rounding formulas (browser integers,
  Python `Decimal` with its 28-digit context, Python integers, SQL `round`), dates and identifiers.
* **The database layer** (`Tables`, `Triggers`): the rows of one organization, every row write as the
  constraints and PL/pgSQL triggers accept or abort it, and transactions with the checks deferred to
  commit. `TriggerProofs` and `TriggerTheorems` prove what the triggers alone guarantee over every
  history of transactions, whoever issues them.
* **The service** (`Ledger`, `Service`): each command as one atomic step from the rows before to the
  rows after, and the class `Service.Session` that carries the command out statement by statement and
  commits or rolls back. `Refinement` and `BillingRefinement` prove that the service refines the
  triggers; `GuardLayers` compares the two layers of guards; `LedgerProofs` and `LedgerTheorems` prove
  the promises that need the service (replays, one request one effect, reversals, the opening);
  `CommandTheorems` tells each command over the rows alone: exactly when it succeeds, and exactly
  which rows a success adds.
* **The browser's command** (`JournalForm`, `JournalCommand`, `Wire`): normal form, the stored record,
  the class `JournalCommands` with its storage slot, and the check of the server's answer.
* **The protocol** (`Protocol`, `ProtocolProofs`, `ProtocolTheorems`, `ProtocolRecovery`,
  `ProtocolExample`): any number of browsers and tabs, slots and locks, requests and answers that are
  delayed or lost at any point, tabs that stop at any point, and the ledger with all its other callers,
  as one step system with an inductive invariant. `ProtocolRecovery` proves which committed commands
  can still be shown to their user, and which block their slot for ever.
* **Smaller cores** (`BodyReader`, `Owners`, `SessionRenewal`): the proxy's capped body reader, the
  last-owner rule, one-use refresh tokens renewed under a lock.

Assumptions, all visible in the definitions: digests are injective; a confirmed request id is fresh;
row identifiers come from the caller of a command and a colliding one fails its primary key; the
clock does not go back and the service and the database read the same one; a command that holds the
organization row lock is one atomic step, and so are the two that do not hold it: creating an account
locks only the parent row, for sharing, and assigning a role locks nothing; a status of 400, 401, 403, 404, 413 or 422 is
the answer of a copy that committed nothing, a gateway's other errors leave the copy on its way, and
nobody duplicates a copy; only this code writes the storage slot.

Where the code does not do what it is meant to do, with the exact condition in each case:

* A journal can be posted and never be shown to the user who confirmed it: the slot then stays full
  and its scope can confirm no other journal. A committed command can still be shown exactly when its
  record has at most 100,000 characters, the journal was posted under the confirming user, no
  identifier in it has a capital letter, and no description starts or ends with U+0085, which the
  server strips and the browser does not (`ProtocolRecovery.ShowableExactly`). The form accepts
  inputs of each kind (`Wire.CapitalIdsAccepted`, `Wire.NextLineAccepted`,
  `JournalCommand.AcceptedDraftOverTheLimit`), and `ProtocolExample.CapitalLettersBlockForEver` is a
  complete execution from an empty organization.
* The service never lets an opening be reversed, but the triggers do not ask whether a journal is
  already reversed when it becomes the opening. Under the triggers alone an opening ends up reversed
  exactly when a posted journal reverses its journal at the row write that declares it
  (`TriggerTheorems.OpeningReversedOnlyBefore`, `LedgerTheorems.TriggersAllowReversedOpening`).
* The triggers let a reversal be reversed, which the service refuses
  (`GuardLayers.TriggersReverseReversals`).
* `guard_posted_journal` returns `NEW` on a DELETE, where it is NULL, so deleting a DRAFT journal is
  silently skipped; the model does the same.
* The browser's calendar has a year 0 that the server does not read
  (`Wire.YearZeroAccepted`, `Wire.NormalDraftValidates`).

## Model

| member | source | states |
|---|---|---|
| DecimalText.CentsRoundTrip | apps/web/lib/journal-command.ts:42-55 | centsAmount then journalCents gives the amount back exactly below 10^18, and is refused from there on |
| DecimalText.AmountTextRoundTrip | apps/web/lib/journal-command.ts:42-55 | journalCents then centsAmount gives the text back exactly for canonical texts |
| DecimalText.FixedPointReads | apps/web/lib/journal-command.ts:42-48 | every text of 1 to m digits, alone or before a point and 1 to n digits, is read as the number those digits name: 1.5 is 150 hundredths, 0.5 is 500 thousandths |
| DecimalText.FixedPointReadsOnly | apps/web/lib/service-drafts.ts:31-37 | no other text is read |
| DecimalText.ServerPrintsAsBrowser | backend/app/domains/accounting/service.py:65-70 | the server's two-decimal rendering and centsAmount are one text for every amount, however large |
| Vat.TaxRoundsHalfUp | backend/app/domains/billing/tax_calculation.py:42 | the tax is 15% of the net rounded half away from zero, and no other number is; the error is at most half a minor unit |
| Vat.GrossStrictlyIncreases | backend/app/domains/billing/tax_calculation.py:42-43 | a larger net has a strictly larger gross, and conversely |
| Vat.AcceptedExactly | backend/app/domains/billing/tax_calculation.py:39-46 | accepted exactly for 1 to 100 well-formed amounts with a sum of at most 869565217391304347 |
| Vat.BreakdownReadsBack | backend/app/domains/billing/tax_calculation.py:28-46 | the three printed amounts are read back as net, its tax and their sum |
| Vat.MoneyMinorInverse | backend/app/domains/billing/tax_calculation.py:21-29 | _minor undoes _money on the stored range and refuses everything above it |
| Vat.MinorMoneyInverse | backend/app/domains/billing/tax_calculation.py:21-29 | _money undoes _minor exactly on texts that carry two decimals |
| Vat.MinorReadsExactly | backend/app/domains/billing/tax_calculation.py:21-25 | _minor reads what journalCents reads and to the same amount, except superfluous leading zeros |
| Vat.OnceVersusPerLine | backend/app/domains/billing/tax_calculation.py:32-43 | one rounding differs from n rounded line taxes by at most (n + 1) / 2 minor units |
| Vat.SumOfPrinted | backend/app/domains/billing/tax_assessment.py:57-59 | a list printed from stored amounts is summed as those amounts |
| DraftMoney.DraftTotalCents | apps/web/lib/service-drafts.ts:51-62 | the previewed total is the sum of all line amounts, exactly when there are 1 to 100 lines and every one is readable |
| DraftMoney.ExactSumAdds | apps/web/lib/service-drafts.ts:55-60 | what the sum is: additive over any split of the lines, and each amount itself |
| DraftMoney.PreviewedExactly | apps/web/lib/service-drafts.ts:39-46 | a line is readable exactly when both texts are and the quantity is positive |
| DraftMoney.ThreeRoundingsAgree | backend/app/domains/billing/service.py:21-22 | for every quantity below 10^9 and price below 10^12 the browser's integers, Decimal's quantize and SQL's round give one amount, and Decimal loses no digit |
| DraftMoney.PreviewIsServerAmount | apps/web/lib/service-drafts.ts:39-49 | a line's preview is the amount the server computes from the same texts |
| DraftMoney.DecimalSumExact | backend/app/domains/billing/service.py:105-106 | Decimal's sum of up to 100 line amounts is the exact sum |
| DraftMoney.ContextKeepsExactly | backend/app/domains/billing/service.py:21-22 | the context leaves a value alone exactly up to 28 digits |
| DraftMoney.HalfEvenIsNearest | backend/app/domains/billing/service.py:21-22 | where the context would drop digits it keeps the nearest coefficient, the even one of two |
| WireText.DateRoundTrip | backend/app/domains/accounting/service.py:54 | a date is printed as the text it was read from |
| WireText.DatesExactly | apps/web/lib/journal-command.ts:80-85 | the dates that exist, month by month, with the leap day |
| WireText.ValidIdExactly | apps/web/lib/journal-command.ts:38-41 | an identifier is valid exactly as five runs of hexadecimal digits of 8, 4, 4, 4 and 12, with hyphens between them |
| WireText.LeapsExactly | apps/web/lib/journal-command.ts:80-85 | leap years: the number of them up to any year is y/4 - y/100 + y/400 |
| WireText.MonthsExactly | apps/web/lib/journal-command.ts:80-85 | month lengths: the days before each month follow the closed form of the March-based calendar |
| WireText.DatesInOrder | apps/web/lib/journal-command.ts:80-85 | dates are compared as their texts are |
| WireText.TrimTakesSpace | apps/web/lib/journal-command.ts:86-112 | trimming takes exactly a run of white space off each end and leaves none there |
| WireText.StripTakesSpace | backend/app/domains/accounting/schemas.py:9-10 | the same for the server, with its own notion of white space |
| WireText.SpacesExactly | apps/web/lib/journal-command.ts:86-112 | the characters that trimming and stripping take, one by one |
| WireText.StripChangesExactly | backend/app/domains/accounting/schemas.py:9-10 | the server's stripping changes a text the browser has trimmed exactly when U+0085 is at one of its ends |
| WireText.LowerChangesExactly | apps/web/lib/journal-command.ts:38-41 | the server prints an identifier differently exactly when it was given a capital letter |
| WireText.LowerKeepsDigits | apps/web/lib/journal-command.ts:38-41 | a printed identifier has the same hexadecimal digits in small letters |
| JournalForm.JournalTotals | apps/web/lib/journal-command.ts:56-67 | both sides' totals as the sums of the amounts read, or a failure exactly when some amount cannot be read |
| JournalForm.TotalsAreSums | apps/web/lib/journal-command.ts:56-67 | the totals are the exact sums of the debit and of the credit column |
| JournalForm.NormalizesLineExactly | apps/web/lib/journal-command.ts:86-105 | a line is accepted exactly with a valid account, two readable or empty amounts of which exactly one is positive, and a note of at most 500 after trimming; its normal form prints both amounts |
| JournalForm.NormalizesExactly | apps/web/lib/journal-command.ts:68-117 | a draft is accepted exactly with a valid or no branch, a valid date, a description of 1 to 500 after trimming, 2 to 100 accepted lines and equal column sums; the normal form is given field by field |
| JournalForm.NormalizeIdempotent | apps/web/lib/journal-command.ts:68-117 | a normal form is its own normal form |
| JournalForm.NormalizeKeepsValues | apps/web/lib/journal-command.ts:86-116 | every line keeps its account and both amounts, and the two totals are equal and positive |
| JournalForm.NormalLineStable | apps/web/lib/journal-command.ts:86-105 | a normal line is stable, shows its amounts as read and has exactly one positive side |
| JournalCommand.ReadBackExactly | apps/web/lib/journal-command.ts:134-162 | a saved record is read back unchanged exactly when its serialised length is at most 100,000 |
| JournalCommand.RecordLengthExactly | apps/web/lib/journal-command.ts:134-141 | the length that is limited is that of the JSON text of the record, written out, in UTF-16 units |
| JournalCommand.JsonCharInjective | apps/web/lib/journal-command.ts:134-141 | different characters are written differently in that text |
| JournalCommand.AbsenceExactly | apps/web/lib/journal-command.ts:134-162 | only an empty slot is read as absence |
| JournalCommand.FoundExactlyOwnRecords | apps/web/lib/journal-command.ts:134-162 | a slot is read exactly as the record of some accepted draft of this scope that is short enough, and as nothing else |
| JournalCommand.VerifiedIsExact | apps/web/lib/journal-command.ts:163-197 | apart from the journal's id, which is valid, and its posting time, which is present, only one answer is ever accepted for a record |
| JournalCommand.AcceptedDraftOverTheLimit | apps/web/lib/journal-command.ts:141 | a concrete accepted draft of 100 lines whose record exceeds the limit |
| JournalCommand.OversizedRecordStaysForever | apps/web/lib/journal-command.ts:225-234 | no answer clears or delivers a record over the limit |
| JournalCommand.ConfirmClearsExactly | apps/web/lib/journal-command.ts:235-279 | for every status, confirm empties the slot of a readable record exactly on a verified answer or on 400, 403, 404, 413 or 422, in the unchanged session, if the storage lets it be removed |
| JournalCommand.RecoveryClearsExactly | apps/web/lib/journal-command.ts:280-313 | resend and reconcile empty it exactly on such a verified answer, whatever a rejection says |
| JournalCommand.OutcomesExactly | apps/web/lib/journal-command.ts:235-313 | what the user is told, after every answer to a confirm, a resend or a lookup |
| JournalCommand.JournalCommands.Save | apps/web/lib/journal-command.ts:216-224 | the slot holds whatever the storage kept, and saving succeeds exactly when that is the record and can be read back |
| JournalCommand.JournalCommands.Clear | apps/web/lib/journal-command.ts:225-234 | the slot is emptied exactly when it is read as that very record and the storage removes it |
| JournalCommand.JournalCommands.Send | apps/web/lib/journal-command.ts:235-244 | slot and outcome after the request settled |
| JournalCommand.JournalCommands.Confirm | apps/web/lib/journal-command.ts:245-279 | something is sent exactly when the draft is accepted, the slot is empty and the record was stored first; what each refusal reports and what a failed store leaves behind |
| JournalCommand.JournalCommands.Reconcile | apps/web/lib/journal-command.ts:280-305 | slot and outcome of a lookup; without a readable record the slot is as before and the outcome says why |
| JournalCommand.JournalCommands.Resend | apps/web/lib/journal-command.ts:306-313 | slot and outcome of a resend, which never clears on a rejection; what each refusal reports |
| Wire.ParsedTotals | backend/app/domains/accounting/schemas.py:34-64 | reading a payload keeps both totals |
| Wire.NormalDraftValidates | backend/app/domains/accounting/schemas.py:34-64 | a normal draft read with its texts unchanged passes JournalIn; only years before 1 are not read |
| Wire.TotalsReadBack | backend/app/domains/accounting/service.py:60-61 | the totals printed from Decimal sums are the browser's, also above the bound of one amount |
| Wire.JournalSumsExact | backend/app/domains/accounting/service.py:60-61 | Decimal's 28 digits lose nothing in the totals of up to 100 stored lines |
| Wire.HonestAnswerVerifies | apps/web/lib/journal-command.ts:163-197 | journal_dict of a stored request satisfies verifiedJournal exactly when the row id is well formed, the organization and the poster are the session's, and reading left every text alone |
| Wire.PostedAnswerVerifies | backend/app/domains/accounting/service.py:41-73 | the answer to a post, first or repeated, is verified under exactly the same condition; a first post is by its caller |
| Wire.AlteredExactly | backend/app/domains/accounting/schemas.py:9-64 | a normal payload is left alone by the server exactly when no identifier has a capital letter and no description has U+0085 at an end |
| Wire.CapitalIdsAccepted | apps/web/lib/journal-command.ts:38-41 | a concrete accepted draft with account ids in capital letters, which every server alters |
| Wire.NextLineAccepted | apps/web/lib/journal-command.ts:86-112 | a concrete accepted draft with a description that the server strips |
| Wire.YearZeroAccepted | apps/web/lib/journal-command.ts:80-85 | a concrete accepted draft dated in the year 0, which no server reads |
| Tables.ProfileOnIsLatest | backend/app/domains/billing/tax_profile.py:57-61 | profile_on selects the latest declaration effective on the day, and nothing exactly when there is none |
| TriggerProofs.KeepsPosted | backend/migrations/versions/0002_accounting.py:110-134 | no row write changes a posted journal or its lines, posts into a closed period or behind the cutover, or reverses a charge |
| TriggerProofs.KeepsSound | backend/migrations/versions/0010_service_charges.py:39-102 | every row write the triggers accept keeps all row invariants of chart, journals, periods, opening and billing |
| TriggerProofs.CommitKeeps | backend/migrations/versions/0002_accounting.py:136-157 | every committed transaction leaves all journals balanced and all drafts summed, and extends what was committed before |
| TriggerProofs.HistoryKeeps | backend/migrations/versions/0002_accounting.py:109-158 | the same over every history of transactions, by anyone |
| TriggerTheorems.JournalsAlwaysBalance | backend/migrations/versions/0002_accounting.py:136-157 | from an empty database every committed journal is posted with two or more lines and equal positive sides |
| TriggerTheorems.CommittedJournalNeverChanges | backend/migrations/versions/0002_accounting.py:110-134 | no later history changes a committed journal or its lines |
| TriggerTheorems.ClosedPeriodIsFrozen | backend/migrations/versions/0004_accounting_periods.py:43-105 | periods stay disjoint; in a closed one the posted journals and every account's net are final |
| TriggerTheorems.PeriodsAlwaysInOrder | backend/migrations/versions/0004_accounting_periods.py:30-84 | in every reachable state a period does not end before it starts, is closed exactly when time and closer are known, and shares no day with another |
| TriggerTheorems.UpdatesExactly | backend/migrations/versions/0004_accounting_periods.py:43-105 | an UPDATE may close an open period, seal a draft, and rename an account or switch it, and changes nothing else |
| TriggerTheorems.CutoverIsExact | backend/migrations/versions/0005_opening_balance.py:36-99 | an opening is final, its journal is the only posted one on or before its date, and nobody comes to reverse it |
| TriggerTheorems.OpeningReversedOnlyBefore | backend/migrations/versions/0005_opening_balance.py:36-99 | whatever is written around it, an opening ends up reversed exactly when a posted journal reverses its journal at the row write that declares it |
| TriggerTheorems.AccountsFormAForest | backend/migrations/versions/0003_account_hierarchy.py:34-86 | no account is its own ancestor, a tree has one type, an account with journal lines has no children |
| TriggerTheorems.ChargeReconciles | backend/migrations/versions/0010_service_charges.py:40-87 | each charge's journal debits exactly gross and credits exactly net and tax, its three accounts differ, its net is the sum of the draft's lines, request, author and date agree, and the draft has no other charge |
| TriggerTheorems.ChargeStandsForEver | backend/migrations/versions/0010_service_charges.py:89-101 | a charge, its journal and its lines never change and the journal is never reversed |
| TriggerTheorems.AsOfStable | backend/migrations/versions/0008_tax_profiles.py:33-50 | effective dates strictly increase, and the declaration in force on a past day never changes |
| Refinement.CheckedIsReady | backend/app/domains/accounting/service.py:114-170 | write_entry's checks establish every condition the triggers will ask for |
| Refinement.JournalAccepted | backend/app/domains/accounting/service.py:155-197 | header, lines and posting update pass every trigger and the deferred check, and add exactly the journal and its numbered lines |
| Refinement.OpeningAccepted | backend/app/domains/accounting/service.py:318-328 | guard_opening_balance_batch accepts the batch of a successful opening |
| Refinement.ChargeAccepted | backend/app/domains/billing/charges.py:100-117 | guard_service_charge accepts the charge of a successful approval, line by line |
| BillingRefinement.DraftWrites | backend/app/domains/billing/service.py:105-144 | a stored draft carries its lines' exact total and every line's exactly rounded amount |
| BillingRefinement.DraftArithmeticNeverFails | backend/app/domains/billing/service.py:105-108 | no valid draft request fails on Decimal arithmetic |
| BillingRefinement.VatOfDraft | backend/app/domains/billing/tax_assessment.py:54-61 | the calculation over a stored draft is accepted exactly when its total is in the qualified range, and yields that total |
| BillingRefinement.AssessWrites | backend/app/domains/billing/tax_assessment.py:50-72 | a new assessment's net is its draft's total and the database accepts it |
| BillingRefinement.CommandRefines | backend/app/domains/accounting/service.py:114-347 | every command is one transaction the triggers and deferred checks accept, or none |
| BillingRefinement.RunIsHistory | backend/app/domains/accounting/service.py:114-347 | every run of commands is a history of accepted transactions, so all that holds of histories holds of runs |
| GuardLayers.TriggersRepeatTheChecks | backend/app/domains/accounting/service.py:122-153 | the triggers accept a validated journal exactly when row id and request id are new, accounts exist and are postable, the date is open and after the cutover, and the original of a reversal is unreversed, no charge and no opening |
| GuardLayers.OnlyServiceRefusesReversingReversals | backend/app/domains/accounting/service.py:224-247 | of the reasons to refuse a reversal, the triggers repeat all but that the original is itself one |
| GuardLayers.TriggersReverseReversals | backend/migrations/versions/0010_service_charges.py:89-101 | the triggers accept the reversal of an unreversed reversal, which the service refuses to every caller |
| LedgerProofs.StepKeeps | backend/app/domains/accounting/service.py:114-347 | each command keeps every stored journal tied to the request and the operation it was written for |
| LedgerProofs.RunKeeps | backend/app/domains/accounting/service.py:114-347 | the same over every run |
| LedgerTheorems.PostReplays | backend/app/domains/accounting/service.py:200-205 | in every later state the same post returns the same unchanged journal to every authorized caller, and refuses the others |
| LedgerTheorems.ReverseReplays | backend/app/domains/accounting/service.py:208-223 | the same for a reversal |
| LedgerTheorems.OpeningReplays | backend/app/domains/accounting/service.py:269-305 | the same for an opening |
| LedgerTheorems.ChargeReplays | backend/app/domains/billing/charges.py:59-74 | the same for an approval |
| LedgerTheorems.OpeningEntryHasItsBatch | backend/app/domains/accounting/service.py:294-304 | a journal found under an opening's digest is the opening's, so the branch without a batch is never taken |
| LedgerTheorems.PostsExactly | backend/app/domains/accounting/service.py:114-205 | an authorized fresh journal is posted exactly on existing, postable, active accounts and an open date after the cutover, in SAR; a missing account is reported first |
| LedgerTheorems.OneRequestOneEffect | backend/app/domains/accounting/service.py:96-111 | a used request id writes nothing more under any of the four operations, and succeeds only as a replay of the operation it was used for |
| LedgerTheorems.RequestNamesOneJournal | backend/app/domains/accounting/service.py:96-111 | a request id names one journal for ever |
| LedgerTheorems.ReversalCancels | backend/app/domains/accounting/service.py:236-266 | original and reversal net to zero on every account; a reversal is not reversed and is the only one |
| LedgerTheorems.SwappedNeverFails | backend/app/domains/accounting/service.py:248-265 | the swapped payload of a stored journal always validates |
| LedgerTheorems.ReversibleExactly | backend/app/domains/accounting/service.py:208-266 | an authorized fresh request reverses exactly an ordinary unreversed journal on an open date after the cutover, active accounts or not |
| LedgerTheorems.OpeningForEver | backend/app/domains/accounting/service.py:224-230 | an opening is the only one for ever, alone on or before its date, and never reversed |
| LedgerTheorems.TriggersAllowReversedOpening | backend/migrations/versions/0005_opening_balance.py:36-73 | a concrete history of accepted row writes ends with a reversed opening |
| LedgerTheorems.ClosedPeriodIsFinal | backend/app/domains/accounting/routes.py:147-219 | under the service the journals dated in a closed period and every net over it are final |
| LedgerTheorems.ChargesReconcileForEver | backend/app/domains/billing/charges.py:59-123 | every charge the service ever makes reconciles with draft, assessment and journal in every later state |
| LedgerTheorems.ChargeJournalValid | backend/app/domains/billing/charges.py:100-110 | the journal built from a stored assessment always validates |
| LedgerTheorems.ChargeableExactly | backend/app/domains/billing/charges.py:59-123 | a fresh approval whose source passes the checks succeeds exactly on an open date after the cutover, and never fails half way; the checks are written out in CommandTheorems.ApprovesExactly |
| CommandTheorems.AuthorizesExactly | backend/app/domains/accounting/service.py:22-30 | who is let through, and in which order an unknown branch, a missing right and an inactive branch are reported |
| CommandTheorems.ValidatesExactly | backend/app/domains/accounting/schemas.py:14-64 | JournalIn accepts exactly a description of 1 to 500, 2 to 100 one-sided lines of at most 16 digits before the point, notes of at most 500, and equal column sums |
| CommandTheorems.PostsOnFreeDates | backend/app/domains/accounting/service.py:114-205 | a fresh post is taken exactly when it is valid, the caller may post in its branch, its accounts are active and postable, its date is in no closed period and after the cutover, in SAR; which reason against it is reported |
| CommandTheorems.PostStores | backend/app/domains/accounting/service.py:155-205 | a first post adds exactly one journal with the fields and lines of its request, numbered from one, by its caller, and nothing else |
| CommandTheorems.PostsAgain | backend/app/domains/accounting/service.py:96-111 | a post under a stored request is answered with that journal for the same post and an authorized caller, and refused otherwise |
| CommandTheorems.ReversesExactly | backend/app/domains/accounting/service.py:208-266 | a fresh reversal is taken exactly with a reason of 1 to 500, of a stored journal that is no opening, no charge, no reversal and not reversed, from a caller with both rights, on a free date; which reason against it is reported |
| CommandTheorems.ReversalStores | backend/app/domains/accounting/service.py:248-266 | it adds exactly one journal in the original's branch with the original's lines in their order, debit and credit exchanged |
| CommandTheorems.ReversesAgain | backend/app/domains/accounting/service.py:208-223 | the same for a reversal under a stored request |
| CommandTheorems.OpensExactly | backend/app/domains/accounting/service.py:269-347 | a fresh opening is taken exactly when it is valid, from a caller with both rights, when there is none, every posted journal is later, its accounts are active and its date is free, in SAR; which reason against it is reported |
| CommandTheorems.OpeningStores | backend/app/domains/accounting/service.py:278-347 | it adds exactly one journal with the date, description and lines of its request and no branch, and the batch that names it |
| CommandTheorems.OpensAgain | backend/app/domains/accounting/service.py:287-305 | the same for an opening under a stored request |
| CommandTheorems.OpeningShowsRequest | backend/app/domains/accounting/service.py:269-347 | after an opening, first or repeated, and in every later run, the opening's journal has the request's id, date, description and lines, debits and credits as given |
| CommandTheorems.AccountsExactly | backend/app/domains/accounting/routes.py:54-94 | an account is created exactly under a free code of the allowed characters, at the top or under an active summary account of its type; what is stored |
| CommandTheorems.PeriodsExactly | backend/app/domains/accounting/routes.py:147-182 | a period is created exactly when it does not end before it starts and shares no day with another; what is stored |
| CommandTheorems.ClosesExactly | backend/app/domains/accounting/routes.py:185-219 | exactly a stored open period is closed, in place and in the caller's name; which refusal comes first |
| CommandTheorems.DraftsExactly | backend/app/domains/billing/service.py:77-144 | a fresh draft is taken exactly when it is well formed, in SAR, and the sum of the rounded line amounts is at most 9999999999999999.99; it is stored sealed with that sum and every line with its amount |
| CommandTheorems.DraftsReplay | backend/app/domains/billing/service.py:89-103 | a stored request is answered with the stored draft for the same content and refused for another; nothing is written |
| CommandTheorems.PreviewIsDraftTotal | apps/web/lib/service-drafts.ts:51-62 | the total the browser previews is the total the server stores, in sum and line by line, for the same texts |
| CommandTheorems.DeclaresExactly | backend/app/domains/billing/tax_profile.py:28-54 | a fresh declaration is taken exactly for today or later and after every earlier one, and stored last |
| CommandTheorems.DeclarationsReplay | backend/app/domains/billing/tax_profile.py:32-38 | a stored request is answered with its declaration or refused |
| CommandTheorems.AssessesExactly | backend/app/domains/billing/tax_assessment.py:38-72 | a fresh assessment is taken exactly on a sealed SAR draft with a positive total of at most 8695652173913043.47, under a registered declaration in force on the day |
| CommandTheorems.AssessmentStores | backend/app/domains/billing/tax_assessment.py:54-68 | it stores the draft's total, 15 hundredths of it rounded half up and their sum, under the declaration in force |
| CommandTheorems.AssessmentsReplay | backend/app/domains/billing/tax_assessment.py:38-49 | a stored request is answered with its assessment or refused |
| CommandTheorems.ApprovesExactly | backend/app/domains/billing/charges.py:59-123 | a fresh approval is taken exactly when assessment, draft and customer exist, the draft is uncharged, sealed, in SAR and still has the assessed positive total, the date is the assessment's, not later than today and free, its declaration is in force and registered, and three usable accounts have their types; which reason against it is reported, and it never fails half way |
| CommandTheorems.ChargeStores | backend/app/domains/billing/charges.py:100-123 | it adds exactly one journal, receivable against revenue and, if positive, tax, and one charge row naming its sources, that journal and the caller |
| CommandTheorems.ApprovesAgain | backend/app/domains/billing/charges.py:68-77 | an approval under a stored request is answered with that request's charge exactly for the same approval; another operation's journal is never adopted |
| CommandTheorems.ChargeGuardExactly | backend/migrations/versions/0010_service_charges.py:40-87 | after the charge's journal is written, guard_service_charge accepts the charge exactly when the service finds its sources in order and row and request are new: neither layer refuses more than the other |
| CommandTheorems.AssessmentGuardExactly | backend/migrations/versions/0009_tax_assessments.py:32-60 | guard_tax_assessment accepts an assessment of the stored total exactly when the service would: a taxable draft, a new row and request, and the named declaration in force and registered |
| Service.Session.constructor | backend/app/domains/accounting/service.py:88-93 | a session starts on an empty organization with no statement pending |
| Service.Session.Write | backend/migrations/versions/0002_accounting.py:110-134 | one statement, and none after a failure |
| Service.Session.Commit | backend/migrations/versions/0002_accounting.py:136-157 | the deferred checks decide between the written rows and the rows before |
| Service.Session.FindRequest | backend/app/domains/accounting/service.py:96-111 | the stored journal of a request, judged by its own branch and digest |
| Service.Session.WriteEntry | backend/app/domains/accounting/service.py:114-197 | either the first failing check and no statement, or the journal's statements in order |
| Service.Session.PostJournal | backend/app/domains/accounting/service.py:200-205 | performs exactly the described post, or changes nothing |
| Service.Session.ReverseJournal | backend/app/domains/accounting/service.py:208-266 | performs exactly the described reversal, or changes nothing |
| Service.Session.PostInitialOpening | backend/app/domains/accounting/service.py:269-347 | performs exactly the described opening, or changes nothing |
| Service.Session.CheckMappings | backend/app/domains/billing/charges.py:92-99 | the first unusable account of the mapping decides |
| Service.Session.CheckCharge | backend/app/domains/billing/charges.py:75-99 | the first failing check of the source decides |
| Service.Session.WriteCharge | backend/app/domains/billing/charges.py:100-117 | journal and charge as one sequence of statements |
| Service.Session.ApproveCharge | backend/app/domains/billing/charges.py:59-123 | performs exactly the described approval, or changes nothing |
| Service.Session.CreateAccount | backend/app/domains/accounting/routes.py:54-94 | performs exactly the described creation, with the code format; a failed constraint is a conflict |
| Service.Session.CreatePeriod | backend/app/domains/accounting/routes.py:147-182 | performs exactly the described creation, or changes nothing |
| Service.Session.ClosePeriod | backend/app/domains/accounting/routes.py:185-219 | performs exactly the one-way closure, or changes nothing |
| Service.Session.CreateDraft | backend/app/domains/billing/service.py:77-144 | performs exactly the described draft, or changes nothing |
| Service.Session.CreateProfile | backend/app/domains/billing/tax_profile.py:28-54 | performs exactly the described declaration, or changes nothing |
| Service.Session.CreateAssessment | backend/app/domains/billing/tax_assessment.py:38-72 | performs exactly the described assessment, or changes nothing |
| ProtocolProofs.NextKeeps | apps/web/lib/journal-command.ts:199-315 | every step of tabs, network and server keeps the invariant over slots, locks, messages and ledger |
| ProtocolProofs.CutKeeps | apps/web/lib/journal-command.ts:261-279 | an answer from in between, with any status but a rejection, keeps the invariant while its copy can still commit: the slot stays full |
| ProtocolProofs.ExecutionKeeps | apps/web/lib/journal-command.ts:199-315 | the same over every execution |
| ProtocolProofs.RejectedIsDead | apps/web/lib/journal-command.ts:261-276 | when a first attempt is rejected, every copy of it has been refused and none can commit |
| ProtocolTheorems.ServedExactly | backend/app/domains/accounting/service.py:41-73 | a served copy is answered 422, the status of its refusal, or its stored journal; only a success changes the ledger |
| ProtocolTheorems.LookedUpExactly | backend/app/domains/accounting/routes.py:304-324 | a lookup is answered 403 or 404 without the right, and with it the journal of that request in that branch, or 404 |
| ProtocolTheorems.DeliveryEmptiesExactly | apps/web/lib/journal-command.ts:225-313 | an answer empties the slot of a readable record exactly when it is a verified journal, or one of five rejections of a first attempt; the lock is free in any case |
| ProtocolTheorems.ExactlyOnce | apps/web/lib/journal-command.ts:245-314 | one confirmation yields at most one journal, showing exactly the confirmed payload |
| ProtocolTheorems.NoCommitForgotten | apps/web/lib/journal-command.ts:225-279 | a committed command whose success was never shown is still in its slot |
| ProtocolTheorems.SlotEmptiedOnlyFor | apps/web/lib/journal-command.ts:225-279 | only a delivery empties a slot: a verified stored journal was shown, or the command stays out of the ledger in every continuation |
| ProtocolTheorems.GoneForEver | apps/web/lib/journal-command.ts:261-276 | a rejected command never commits, however the execution goes on |
| ProtocolTheorems.NoSecondCommandWhileUnresolved | apps/web/lib/journal-command.ts:251-263 | a new id is minted only when every earlier one there was shown as committed or never will be |
| ProtocolTheorems.ShownIsInLedgerForEver | apps/web/lib/journal-command.ts:235-244 | what was shown is the confirmed payload and is in the ledger, as shown, for ever |
| ProtocolRecovery.OversizedBlocksForEver | apps/web/lib/journal-command.ts:141 | a record over the limit occupies its slot in every continuation |
| ProtocolRecovery.OversizedIsReached | apps/web/lib/journal-command.ts:251-263 | such a record is reached from the start in one step |
| ProtocolRecovery.UnrecognizedBlocksForEver | apps/web/lib/journal-command.ts:225-244 | a committed journal its browser cannot recognize is never shown, and its record occupies the slot in every continuation |
| ProtocolRecovery.AlteredIsReached | backend/app/domains/accounting/service.py:200-205 | if the server accepts a payload whose texts it changes, three steps lead to a commit that is never shown |
| ProtocolRecovery.CommittedIsShownExactly | apps/web/lib/journal-command.ts:280-314 | in every execution a committed unshown command can still be shown exactly when its record is readable and its journal recognizable, and blocks its slot for ever otherwise |
| ProtocolRecovery.ShowableExactly | apps/web/lib/journal-command.ts:280-314 | the same with the server's own stripping, as a condition on the confirmed draft |
| ProtocolRecovery.LookupRecovers | backend/app/domains/accounting/routes.py:304-324 | one lookup of a committed command shows it and clears the slot exactly when its journal is recognizable, and leaves the slot as it is otherwise |
| ProtocolRecovery.ResendRecovers | apps/web/lib/journal-command.ts:306-313 | one accepted resend, of a command already committed or not, shows the journal and clears the slot exactly when it is recognizable |
| ProtocolExample.CapitalLettersBlockForEver | apps/web/lib/journal-command.ts:38-41 | a complete execution: account ids in capital letters are confirmed and posted, and no continuation shows the journal or frees the slot |
| BodyReader.BffScope.Read | apps/web/lib/bff.ts:50-85 | the whole body exactly when it fits and ends properly, whatever the chunks, moving fewer than twice its bytes |
| Owners.Membership.DisableUser | backend/app/api/routes.py:556-586 | suspends, or refuses with the first failing check |
| Owners.Membership.AssignRole | backend/app/api/routes.py:589-666 | adds the role, or refuses with the first failing check, the branch scope included |
| Owners.Membership.RemoveRole | backend/app/api/routes.py:669-720 | deletes the role, or refuses with the first failing check |
| Owners.DisablesExactly | backend/app/api/routes.py:556-586 | a member is suspended exactly by a caller with the right, and a holder of the owner role only while two active owners are stored; nothing else changes |
| Owners.AssignsExactly | backend/app/api/routes.py:589-666 | a role is given exactly to an active member, once per scope, by a caller who holds all it grants; the owner role only everywhere and by a holder of it |
| Owners.RemovesExactly | backend/app/api/routes.py:669-720 | a role is taken exactly by a caller who holds all it grants, an owner role only while two active owners are stored; only that row goes |
| Owners.AlwaysAnOwner | backend/app/api/routes.py:537-720 | an organization with an active global owner keeps one over every run |
| Owners.LastOwnerExactly | backend/app/api/routes.py:566-582 | an active owner is refused suspension exactly when none would be left |
| Owners.DuplicateRowsWouldBreakTheRule | backend/app/core/models.py:128-134 | without the partial unique index the count would let the last owner go |
| SessionRenewal.RefreshSessions.IssueRefresh | backend/app/core/security.py:62-71 | a new token, never stored before |
| SessionRenewal.RefreshSessions.RevokeRefresh | backend/app/core/security.py:74-84 | the revocation that signing out and rotating use |
| SessionRenewal.RefreshSessions.RotateRefresh | backend/app/core/security.py:87-96 | the rotation that the browser steps use: a usable token is revoked and replaced, any other changes nothing |
| SessionRenewal.RotatesExactly | backend/app/core/security.py:87-96 | a token is replaced exactly while it is stored, unrevoked and unexpired; both rows afterwards are written out |
| SessionRenewal.RevokesExactly | backend/app/core/security.py:74-84 | only the presented unrevoked token changes, and only its revocation time |
| SessionRenewal.RotatedOnce | backend/app/core/security.py:87-96 | a token is replaced at most once, by a new one for the same user, whatever happens to the sessions in between |
| SessionRenewal.CountsExactly | apps/web/lib/api.ts:20-43 | the counters of the next statement count losses of access, renewals, replays and lost answers, one by one |
| SessionRenewal.RenewalIsSingle | apps/web/lib/api.ts:20-43 | rotations never exceed losses of access, and a rotated token is presented again only after a lost answer |

## Left out

- HTTP, rate limits, logging, audit rows, listing and pagination, React components and deployment.
- Customers, the obligation preview and e-mail addresses of drafts: single-branch checks.
- Token signatures, hashing and random identifiers: digests are injective, new tokens and ids are new.
- JSON parsing: a stored text is the serialisation of a record, or any other text.
- The server's stripping is a parameter of the statements, which hold for each such function; the
  instance `WireText.Strip` removes the characters with the White_Space property. The validation
  library that strips is not part of this model.
- Request bodies other than normalised payloads: amounts in other notations, other uuid notations.
- Names of accounts, and VAT numbers with the rule that ties them to a registration.
- Time zones: the organization's local date is part of the state.
- Physical deletion of account rows and updates of row identifiers, which no code here performs.
- Other organizations: every query is scoped, so their rows never appear.
- Concurrency inside the database: every command is one step, also the two without the row lock.
- A storage that keeps another record than it was given: in the protocol it keeps an unreadable text.
- Deadlines and abort timers of the readers, and decoding the gathered bytes as UTF-8.
- Duplication of a request by the network, and a definite rejection sent while its copy is still alive.
- The number of 401 renewals: the client renews once per call, the protocol allows any number.
- Waiting for a lock: a tab that waits takes no step; the lock's exclusion is part of the state.
- Updates of users' global status, which no code here performs.
- TriggerTheorems.OpeningReversedOnlyBefore: does not say an opening is never reversed, because the
  triggers allow one that was reversed beforehand; it says exactly when.
- GuardLayers.TriggersRepeatTheChecks: does not repeat the service's checks of inactive accounts, of the
  currency and of reversed reversals, because no trigger makes them.
