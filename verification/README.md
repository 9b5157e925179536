# The double-entry core, modelled and proved

This project models the accounting core of the RGNR8 monorepo in Dafny and proves what it is built to
guarantee. The ledger kernel is a state machine over a journal, a chart of accounts and period locks;
around it sit the components whose state has to stay consistent with it: the PostgreSQL stores, the
AR/AP documents, the close lifecycle, the cutover from QuickBooks, bank-feed ingestion, the statements,
consolidation, the opening and year-end journals and the close calendar.

`dafny verify dfyconfig.toml` checks everything. There is one module per file, named for what it models:

| files | what they model |
|---|---|
| `Text`, `Sums`, `Dates`, `Money` | numerals, finite sums, calendar dates, money and FX |
| `Ledger`, `LedgerStore`, `Fingerprint`, `Periods`, `Chart`, `PostingEngine`, `PostingEffects`, `TrialBalance` | the posting kernel |
| `ChartEdit`, `ChartEditEffects`, `ChartSaves`, `BookRuns`, `IdReuse` | chart edits, saving and loading them, and runs of posts, reversals, locks and edits together |
| `PgLedgerStore`, `PgAppends`, `Readings`, `GlDetail` | concurrent appends, and the readings of one journal |
| `Documents`, `ArAp`, `ArApAmounts`, `ArApEntries`, `ArApRuns`, `ArApControls`, `ArApRefunds`, `ArApExamples` | invoices, bills, payments, credits, refunds, and their tie to the control accounts |
| `Close`, `CloseEffects`, `CloseRuns`, `YearEnd`, `YearEndSheets`, `Calendar` | sealing, reopening, year end, and the close calendar |
| `Cutover`, `CutoverEffects`, `CutoverRuns`, `Conversion`, `ConversionEffects` | moving the book of record and back, opening balances, go-live |
| `Ingestion`, `IngestEffects`, `IngestionRuns`, `Ofx`, `OfxEffects`, `OfxRoundTrip` | transfers and deduplication; the OFX printer and parser |
| `Statements`, `StatementLaws`, `Consolidation`, `TranslationLaws`, `GroupSheets` | the three statements, currency translation, consolidation |

Code that updates fields is a class whose methods are proved equal to a function of the old state; loops
are loops with invariants; the theorems are about those functions, over every input, run or interleaving.

Where the code and its comments disagree, the model follows the code, and the difference is proved:

- Locking or unlocking the period that carries the SQL watermark, or moving the mark backwards, makes the
  SQL store disagree with the in-memory one (`Periods.RelockingTheMarkDiverges`, `Periods.BackwardsMarkDiverges`);
  `Periods.RunAgreesIffSafe` says exactly when they agree.
- "All three, or none" does not hold of a publish: `CloseRuns.RefusedPublishLocksIffItReachedTheStore` says
  exactly when a refused publish leaves a lock behind. A reopened period whose books changed can never be
  published again (`CloseRuns.ChangedBooksCannotBeResealed`).
- A retried invoice or bill is recognised only when it carries the clock reading of the first attempt, which
  is part of the fingerprint (`ArApRuns.RetryCompletesIffSameClock`); a payment id used twice reduces the open
  amount twice and posts once (`ArApRuns.PayingAgainUnderOneIdBreaksTheTie`).
- A refund is bounded by what has come off its invoice, and credits come off it too: refunds can pay out money
  that was never paid (`ArApExamples.CreditThenRefundPaysOutTheUnpaid`), or pay it out twice
  (`ArApExamples.DoubleRefundPaysTwice`). `ArApRefunds.RefundsStayWithinIff` says exactly when they do not.
- A creation or payment may name a control account as an item, tax or bank account, and then breaks the tie-out
  (`ArApExamples.InvoicingTheControl`, `ArApExamples.PayingThroughTheControl`);
  `ArApControls.RunTiesOutIffHarmless` is exact about it.
- Locking through a month can change a later one: an exception that was re-opened below a higher mark is cleared
  (`Periods.LockingEarlierClosesALaterMonth`). `Periods.LockingThrough` and `CutoverEffects.CompletedCutoverLocks`
  say exactly which later months keep their status.
- A year-end close is refused as a whole when one account it closes was made inactive
  (`YearEndSheets.HiddenAccountRefusesTheClose`, `YearEndSheets.CloseIsAcceptedIff`).
- A single translation rate does not make the CTA zero (`Consolidation.SingleRateCtaNeedNotBeZero`);
  `TranslationLaws.SingleRateCtaIsZeroIff` says exactly when it does. A translated group's balance sheet can be
  out by rounding (`Consolidation.TranslatedSheetMayNotBalance`); `TranslationLaws.TranslatedSheetBalancesIff`
  says by how much and exactly when. Eliminations of revenue or expense put a group's sheet out as well
  (`GroupSheets.EliminatedIncomePutsTheSheetOut`, `GroupSheets.ConsolidatedSheetBalancesIff`).
- After an account is renumbered, a new account under its old number takes over its id. The saved chart can then
  be a cycle no later request can load (`ChartSaves.ReusedIdMakesACycle`), or totals of the past can move
  (`IdReuse.ReusedIdMovesPastTotals`). `ChartSaves.NewAccountKeepsForestIff`, `BookRuns.RunIsSoundIffIdsAreSafe` and
  `IdReuse.TakenOverIdKeepsTotalsIff` say exactly when neither happens. Every result about runs in `BookRuns`
  is about the runs so described.
- The in-memory backend rebuilds a chart without ordering it, so a moved account may not load again
  (`ChartSaves.InMemoryLoadAcceptsIff`); runs load the chart as the PostgreSQL backend does.
- Fingerprints identify payloads whose fields hold none of the delimiters (`Fingerprint.FingerprintIdentifiesPayload`).
  A payload can be mistaken for one that differs only in provenance exactly when some field of its provenance
  holds one (`Fingerprint.ProvenanceIsMistakenIff`).

## Model

| member | source | states |
|---|---|---|
| Money.DecimalRoundTrip | packages/ledger-kernel/src/money.ts:78-158 | printing an amount and parsing it back gives the amount, for every integer and every scale |
| Money.PrintingIsInjective | packages/ledger-kernel/src/money.ts:150-158 | two amounts never print alike at one scale |
| Money.OnlyNumeralsMatch | packages/ledger-kernel/src/money.ts:78-92 | only a numeral is accepted: an optional minus, digits, and a point with digits after it |
| Money.NumeralIsWorth | packages/ledger-kernel/src/money.ts:78-128 | a numeral is worth its digits, places it leaves out filled with zeros, and is refused exactly when it has more places than the scale |
| Money.RoundedQuotientIsNearest | packages/ledger-kernel/src/fx.ts:44-52 | the rounded quotient is within half of the exact one, ties away from zero |
| Money.ConvertIsNearest | packages/ledger-kernel/src/fx.ts:58-76 | a conversion is within half a target minor unit of the exact rational |
| Money.ReciprocalReadsBack | packages/ledger-kernel/src/fx.ts:78-88 | the printed reciprocal of a positive rate parses back to the nearest integer quotient |
| Dates.PreviousDayIsAdjacent | packages/ledger-service/src/consolidation.ts:1051-1070 | no date lies between a date and the one returned as the day before it |
| Dates.PreviousDayNumber | packages/ingestion/src/transfers.ts:16-19 | consecutive dates have consecutive day numbers, over month ends, year ends and leap years |
| LedgerStore.InMemoryLedgerStore.Append | packages/ledger-kernel/src/ledgerStore.ts:61-76 | a new key grows the tenant's journal by one numbered entry, a used key changes nothing; both return the entry of that key; other tenants are untouched |
| LedgerStore.InMemoryLedgerStore.GetByIdempotencyKey | packages/ledger-kernel/src/ledgerStore.ts:78-80 | the key index answers exactly as a search of the journal would |
| LedgerStore.InMemoryLedgerStore.GetById | packages/ledger-kernel/src/ledgerStore.ts:82-84 | the id index answers exactly as a search of the journal would |
| LedgerStore.InMemoryLedgerStore.GetBySequence | packages/ledger-kernel/src/ledgerStore.ts:86-88 | sequence is position: found exactly from 1 to the journal's length |
| LedgerStore.AppendKeepsWellFormed | packages/ledger-kernel/src/ledgerStore.ts:61-76 | appending keeps sequences gap-free, keys unique and earlier lookups as they were |
| LedgerStore.IdsAreDistinct | packages/ledger-kernel/src/ledgerStore.ts:61-76 | entry ids of one tenant never clash |
| PostingEngine.ValidateAndBuildLines | packages/ledger-kernel/src/journal.ts:20-73 | one pass finds the first refused line, or accepts the lines unchanged when both sides agree |
| PostingEngine.AcceptedIffBalanced | packages/ledger-kernel/src/journal.ts:20-73 | lines are accepted exactly when there are at least two, all positive, debits equal credits, and every account is known, active and in the entry's currency |
| PostingEngine.Engine.Post | packages/ledger-kernel/src/postingEngine.ts:60-91 | the engine over its three stores does what the posting specification says, and touches no other tenant |
| PostingEngine.Engine.Reverse | packages/ledger-kernel/src/postingEngine.ts:97-155 | the same for reversals |
| PostingEngine.ReplayAppendsNothing | packages/ledger-kernel/src/postingEngine.ts:61-69 | corollary of the posting specification: a command posted again appends nothing and returns the same entry, whatever the locks have become |
| PostingEngine.ReversalNegatesOriginal | packages/ledger-kernel/src/postingEngine.ts:97-155 | a reversal undoes its original's effect on every account and balances when the original does |
| PostingEffects.PostAcceptedIff | packages/ledger-kernel/src/postingEngine.ts:60-91 | a post is accepted exactly when its key is used by an entry that reads alike, or is new, its month is open and its lines balance on known, active accounts of its currency |
| PostingEffects.RefusalSays | packages/ledger-kernel/src/journal.ts:20-73 | why lines are refused: too few, the first line that may not be posted, or two sides that differ, named by their own totals |
| PostingEffects.PostAddsItsCommand | packages/ledger-kernel/src/postingEngine.ts:60-91 | a post that appends adds one entry that holds its command and answers with it; any other changes nothing |
| PostingEffects.PostMovesItsWindow | packages/ledger-kernel/src/postingEngine.ts:60-91 | over any window a post moves each account by its lines exactly when its date is in the window |
| PostingEffects.ReverseAcceptedIff | packages/ledger-kernel/src/postingEngine.ts:97-155 | a reversal is accepted exactly when its original exists, no account of it is inactive, and its key is used by an entry that reads alike, or is new and its month is open |
| PostingEffects.ReversalPayloadIs | packages/ledger-kernel/src/postingEngine.ts:97-155 | a reversal carries its original's lines on the opposite sides, and the date, month and memo asked for |
| PostingEffects.ReverseAddsTheMirror | packages/ledger-kernel/src/postingEngine.ts:97-155 | a reversal that appends adds that one entry, marked as reversing its original; any other changes nothing |
| PostingEffects.ReversalMovesItsWindow | packages/ledger-kernel/src/postingEngine.ts:97-155 | over any window a reversal takes back its original's effect exactly when the reversal's own date is in the window |
| Fingerprint.FingerprintIdentifiesPayload | packages/ledger-kernel/src/postingEngine.ts:170-226 | two payloads free of the delimiters have one fingerprint exactly when they are equal |
| Fingerprint.ProvenanceIsMistakenIff | packages/ledger-kernel/src/postingEngine.ts:170-226 | for every payload, whatever it holds: another that differs in provenance alone shares its fingerprint exactly when some provenance field holds the delimiter |
| Fingerprint.DelimitersCollide | packages/ledger-kernel/src/postingEngine.ts:170-226 | an input: one delimiter in a provenance field, and two payloads share a fingerprint |
| TrialBalance.NetByAccount | packages/ledger-kernel/src/trialBalance.ts:57-78 | the map holds every account with a line in the window at its net position, and no other |
| TrialBalance.PostedAccountIds | packages/ledger-service/src/chartEdit.ts:93-100 | exactly the accounts some posted line is on |
| TrialBalance.ComputeTrialBalance | packages/ledger-kernel/src/trialBalance.ts:86-129 | one row per touched account of the chart, in the column of its sign, with the totals of the columns |
| TrialBalance.TrialBalanceBalances | packages/ledger-kernel/src/trialBalance.ts:86-129 | over every window, balanced entries on charted accounts give equal column totals |
| TrialBalance.AccountsSumToLines | packages/ledger-kernel/src/trialBalance.ts:57-78 | adding up account by account is adding up line by line, for any selection of accounts |
| BookRuns.StepIsSoundIff | packages/ledger-service/src/chartEdit.ts:207-332 | each post, reversal, lock and chart edit keeps the books' invariant, the types of used accounts and the depth limit, except a creation under an id another account still has; that one keeps them exactly when the holder may be replaced: it keeps its type or has neither children nor posted lines, the new parent is not under it, and what is under it stays within five levels |
| BookRuns.RunIsSoundIffIdsAreSafe | packages/ledger-service/src/chartEdit.ts:207-332 | a whole run keeps them at every step exactly when every creation along it takes its id so |
| BookRuns.StepExtendsJournal | packages/ledger-kernel/src/postingEngine.ts:60-155 | whatever the step, the journal grows by at most one entry, in an open period |
| BookRuns.EveryRunIsSound | packages/ledger-service/src/chartEdit.ts:277-296 | over every run whose creations take their ids safely (that condition): balanced entries, numbered journal, inactive accounts at zero, types frozen once posted to, depth kept |
| BookRuns.AppendedWhileOpen | packages/ledger-kernel/src/postingEngine.ts:71-73 | every entry of such a run was appended while its period read open |
| BookRuns.BooksAlwaysBalance | packages/ledger-kernel/src/trialBalance.ts:86-129 | after any such run every trial balance balances and every inactive account nets to zero |
| BookRuns.PostedOnce | packages/ledger-kernel/src/postingEngine.ts:61-69 | a command posted once is never posted again, whatever such run comes in between |
| BookRuns.PastTotalsNeverMove | packages/ledger-service/src/chartEdit.ts:277-296 | over such runs no chart edit changes a past window's assets, liabilities, equity, revenue or expense |
| IdReuse.TakenOverIdKeepsTotalsIff | packages/ledger-service/src/handlers.ts:1958-1965 | a creation that takes over an id leaves every past total of a window where it was exactly when the account keeps its type or nets to zero in that window |
| IdReuse.ReusedIdMovesPastTotals | packages/ledger-service/src/handlers.ts:1958-1965 | an input where it does not: five units leave the assets of the past and become an expense |
| Periods.InMemoryPeriodStore.Status | packages/ledger-kernel/src/periods.ts:56-64 | a re-open exception, then a lock, then the mark decides |
| Periods.InMemoryPeriodStore.Lock | packages/ledger-kernel/src/periods.ts:66-70 | locks one period of one tenant |
| Periods.InMemoryPeriodStore.LockThrough | packages/ledger-kernel/src/periods.ts:72-86 | raises the mark and drops the exceptions at or below it |
| Periods.InMemoryPeriodStore.Unlock | packages/ledger-kernel/src/periods.ts:88-96 | re-opens one period of one tenant |
| Periods.OnePeriodChanges | packages/ledger-kernel/src/periods.ts:66-96 | locking or re-opening one period gives it that status and leaves every other as it was |
| Periods.LockingThrough | packages/ledger-kernel/src/periods.ts:72-86 | locking through a period locks it and all before it; a later one keeps its status exactly when it was not re-opened below a higher mark |
| Periods.LockingEarlierClosesALaterMonth | packages/ledger-kernel/src/periods.ts:72-86 | an input where a later one does not: locking through January closes the re-opened February |
| Periods.SqlPeriodStore.Status | packages/ledger-postgres/src/pgPeriodStore.ts:35-54 | the row of the period decides, else the highest mark row |
| Periods.SqlPeriodStore.Lock | packages/ledger-postgres/src/pgPeriodStore.ts:56-67 | upserts the period's row |
| Periods.SqlPeriodStore.LockThrough | packages/ledger-postgres/src/pgPeriodStore.ts:69-87 | upserts the mark row and deletes the exceptions at or below it |
| Periods.SqlPeriodStore.Unlock | packages/ledger-postgres/src/pgPeriodStore.ts:89-99 | upserts an open row |
| Periods.StepAgreesIffSafe | packages/ledger-postgres/src/pgPeriodStore.ts:56-99 | from agreeing stores, one operation leaves them agreeing exactly when it is safe |
| Periods.RunAgreesIffSafe | packages/ledger-postgres/src/pgPeriodStore.ts:35-99 | along a run the two stores report the same status for every period exactly when every step is safe |
| Periods.SqlRefinesMemory | packages/ledger-postgres/src/pgPeriodStore.ts:35-99 | with marks that never go back and no lock or unlock of the current mark, the row table refines the in-memory store |
| Periods.RelockingTheMarkDiverges | packages/ledger-postgres/src/pgPeriodStore.ts:56-67 | locking the marked period itself makes the stores disagree |
| Periods.BackwardsMarkDiverges | packages/ledger-postgres/src/pgPeriodStore.ts:69-87 | a mark set backwards makes the stores disagree |
| Chart.ChartOfAccounts.Add | packages/ledger-kernel/src/chartOfAccounts.ts:45-75 | an account is added exactly when its id and code are new, its subtype fits and its parent has its type |
| Chart.DepthOf | packages/ledger-service/src/chartEdit.ts:108-121 | the walk to the root terminates and counts the levels |
| Chart.WalkMeets | packages/ledger-service/src/chartEdit.ts:133-171 | the walk up from an account meets another exactly when it is under it or is it |
| Chart.HeightBounds | packages/ledger-service/src/chartEdit.ts:123-131 | the height of an account bounds how far below it any descendant lies |
| Chart.ParentsFirst | packages/ledger-kernel/src/chartOfAccounts.ts:22-35 | the recursive ordering terminates on any list and computes the specified order |
| Chart.ParentsFirstPermutes | packages/ledger-kernel/src/chartOfAccounts.ts:22-35 | on a valid chart the ordering is a permutation with every parent before its children |
| Chart.RevalidationNeverThrows | packages/ledger-kernel/src/chartOfAccounts.ts:22-75 | rebuilding a valid chart from its rows in any order accepts every account |
| Chart.BuiltIsValid | packages/ledger-kernel/src/chartOfAccounts.ts:37-75 | whatever the constructor accepts is a forest with unique ids and codes and fitting types, listed parents first |
| Chart.LoadAcceptsIffForest | packages/ledger-postgres/src/pgAccountStore.ts:103-110 | loading saved rows, in whatever order, is refused exactly when they are not a forest |
| Chart.LoadKeepsChart | packages/ledger-postgres/src/pgAccountStore.ts:103-110 | a load changes no account, lookup or depth, and lists parents first |
| ChartEdit.EditsKeepTheForest | packages/ledger-service/src/chartEdit.ts:240-332 | an accepted edit keeps the chart a forest within its depth, and the kernel's re-validation never refuses it |
| ChartEditEffects.EditAcceptedIff | packages/ledger-service/src/chartEdit.ts:240-332 | an edit is accepted exactly when every change asked for may be made, and gives the account just those changes |
| ChartEditEffects.DraftedIff | packages/ledger-service/src/chartEdit.ts:207-234 | a new account is drafted exactly when it may be, active and as asked for |
| ChartEditEffects.BooksAllowIff | packages/ledger-service/src/chartEdit.ts:240-300 | what the books refuse, each condition spelled out: QuickBooks' accounts while it keeps the books, the software's own, another type once posted to or with children, hiding an account with a balance, showing one under a hidden parent |
| ChartEditEffects.CheckParentIff | packages/ledger-service/src/chartEdit.ts:133-171 | a parent is allowed exactly when it exists, is active, has the type, is not below the account, and leaves the depth within five |
| ChartEditEffects.NewParentIff | packages/ledger-service/src/chartEdit.ts:240-332 | the parent after an edit is the one asked for, none when cleared, the present one when not mentioned, and is refused exactly when it may not be one |
| ChartEditEffects.SystemAccounts | packages/ledger-kernel/src/types.ts:142-155 | which accounts are the software's own |
| ChartSaves.NewAccountIsAccepted | packages/ledger-service/src/chartEdit.ts:207-234 | on any chart the constructor can hold, the kernel's re-validation refuses no new account the rules let through, one whose id is taken included |
| ChartSaves.NewAccountKeepsForestIff | packages/ledger-postgres/src/pgAccountStore.ts:130-150 | saved by its id, an accepted new account leaves a forest of at most five levels exactly when its id is new, or the holder of the id keeps its type or has no children, the new parent is not under the holder, and what is under it stays within the limit |
| ChartSaves.ReusedIdMakesACycle | packages/ledger-service/src/chartEdit.ts:207-234 | an input where it does not: two accounts become each other's parents and every later load is refused |
| ChartSaves.InMemoryLoadAcceptsIff | packages/ledger-service/src/backend.ts:220-227 | the in-memory backend rebuilds without ordering: an accepted change loads again exactly when its new parent is listed before it |
| PgLedgerStore.EveryInterleavingKeepsInv | packages/ledger-postgres/src/pgLedgerStore.ts:50-156 | every interleaving of callers' transaction steps keeps the tables and the counter in step |
| PgLedgerStore.GapFreeAndExactlyOnce | packages/ledger-postgres/src/pgLedgerStore.ts:50-156 | in every interleaving the committed sequences are exactly 1 to the counter and no key occurs twice |
| PgLedgerStore.AppendsSerialize | packages/ledger-postgres/src/pgLedgerStore.ts:50-156 | two callers of one tenant are never between bump and commit together |
| PgLedgerStore.LoserGetsTheWinner | packages/ledger-postgres/src/pgLedgerStore.ts:50-156 | every caller that returns gets the one committed entry with its key |
| PgLedgerStore.OnlyKeyCanConflict | packages/ledger-postgres/src/pgLedgerStore.ts:400-407 | a unique violation while the counter is held is always on the key |
| PgLedgerStore.InterleavingsRefineTheStore | packages/ledger-postgres/src/pgLedgerStore.ts:50-156 | the committed journal of every interleaving is the in-memory store's journal of the appends in commit order |
| PgAppends.AppendCommits | packages/ledger-postgres/src/pgLedgerStore.ts:50-156 | from every state any callers can lead to, a new caller with a free counter row, a new key and positive amounts commits: it returns its tenant's next entry, holding its draft, and the journal has gained exactly that entry |
| PgAppends.CommittedKeyIsReturned | packages/ledger-postgres/src/pgLedgerStore.ts:50-156 | with a committed key the first read returns the entry of that key and nothing is written |
| PgAppends.BadAmountThrows | packages/ledger-postgres/src/pgLedgerStore.ts:102-156 | the first line whose amount is not positive makes the caller throw, and the tables are as they were |
| PgAppends.FailedIsRolledBack | packages/ledger-postgres/src/pgLedgerStore.ts:102-156 | whatever statement fails, the rollback leaves journal and counter as they were and frees the counter row |
| PgAppends.DoubtfulReadsAgain | packages/ledger-postgres/src/pgLedgerStore.ts:102-156 | a caller whose error only looked like a conflict returns the committed entry of its key, or throws when there is none |
| PgAppends.CommittedAmountsArePositive | packages/ledger-postgres/src/pgLedgerStore.ts:50-156 | in every interleaving no committed entry has an amount that is not positive |
| Documents.InMemoryDocumentStore.SetOpen | packages/ledger-service/src/documents.ts:148-161 | changes the open amount and status of a stored document and nothing else |
| Documents.InMemoryDocumentStore.SaveDoc | packages/ledger-service/src/documents.ts:133-136 | stores the document under its tenant, kind and id |
| Documents.InMemoryDocumentStore.AddPayment | packages/ledger-service/src/documents.ts:163-166 | stores the payment |
| Documents.OpenTotalAfterUpdate | packages/ledger-service/src/documents.ts:133-161 | writing one document moves the open total by exactly its own change |
| ArAp.BuildLines | packages/ledger-service/src/arap.ts:227-271 | one pass resolves, totals and records the lines or stops at the first refused one |
| ArAp.ArApService.CreateDocument | packages/ledger-service/src/arap.ts:310-407 | plans, posts, and only then stores the document; other tenants are untouched |
| ArAp.ArApService.RecordPayment | packages/ledger-service/src/arap.ts:421-505 | plans, posts, and only then reduces the open amount and stores the payment |
| ArAp.ArApService.IssueCredit | packages/ledger-service/src/arap.ts:671-735 | plans, posts, and only then reduces the open amount |
| ArAp.ArApService.IssueRefund | packages/ledger-service/src/arap.ts:745-802 | plans and posts; the document is left as it is |
| ArApEntries.CreateBalances | packages/ledger-service/src/arap.ts:310-407 | every accepted invoice or bill, whatever its lines and tax rate, is posted as a balanced entry of at least two positive lines |
| ArApEntries.TaxGoesToItsAccount | packages/subledger/src/tax.ts:84-122 | an invoice credits its tax account with exactly its tax |
| ArApAmounts.CreationIsPlannedIff | packages/ledger-service/src/arap.ts:310-407 | an invoice or bill is accepted for posting exactly when its request is in order; one bad line anywhere refuses it |
| ArApAmounts.CreationCharges | packages/subledger/src/tax.ts:65-122 | over the request alone: an accepted invoice's tax is its rate times the prices of exactly the lines marked taxable, to the nearest minor unit with halves up; a bill carries none; net is all prices, and net and tax are open |
| ArApAmounts.CreationPostsByAccount | packages/ledger-service/src/arap.ts:310-407 | account by account: the total on the control, each line's price on the account it names, the tax on the tax account, nothing elsewhere |
| ArApAmounts.CreationIsDated | packages/ledger-service/src/arap.ts:310-407 | the entry is for the request's date, in its month, under the document's own key |
| ArApAmounts.ExecutionRecords | packages/ledger-service/src/arap.ts:421-505 | a plan whose posting is refused changes nothing; any other stores its document and its payment and touches no other |
| ArApAmounts.PaymentIsPlannedIff | packages/ledger-service/src/arap.ts:421-505 | a payment is accepted for posting exactly when its amount is positive, at most what is open, and its bank and control are known |
| ArApAmounts.PaymentIsRecorded | packages/ledger-service/src/arap.ts:421-505 | it takes its amount off what is open, is paid exactly at nothing open, and records itself |
| ArApAmounts.PaymentPostsByAccount | packages/ledger-service/src/arap.ts:421-505 | account by account: the bank takes the money in for an invoice and pays it out for a bill, the control the reverse |
| ArApAmounts.CreditIsPlannedIff | packages/ledger-service/src/arap.ts:671-735 | a credit is accepted for posting exactly within what is open, against an account that is no control account |
| ArApAmounts.CreditIsRecorded | packages/ledger-service/src/arap.ts:648-735 | it takes off what it asks for, all that is open unless it says |
| ArApAmounts.RefundIsPlannedIff | packages/ledger-service/src/arap.ts:745-802 | a refund is accepted for posting exactly within what has come off the invoice, from a bank that is known |
| ArApAmounts.RefundIsRecorded | packages/ledger-service/src/arap.ts:745-802 | it leaves the document as it is |
| ArApAmounts.PartsByAccount | packages/ledger-service/src/arap.ts:619-646 | a reversal takes its share of the tax off the tax account and the rest off the income account |
| ArApAmounts.ReversalPostsByAccount | packages/ledger-service/src/arap.ts:671-802 | and the whole of it goes against the control account, or the bank of a refund |
| ArApAmounts.BiggestIsFirstLargest | packages/ledger-service/src/arap.ts:582-592 | a credit that names no account goes to that of the first of the largest lines |
| ArApAmounts.ControlCodeIs | packages/ledger-service/src/arap.ts:161-166 | the default control account when it has the role or none has it; else the lowest code of those that have it |
| ArApAmounts.BankChosenIff | packages/ledger-service/src/arap.ts:173-182 | a bank must be named exactly when there are several active ones and none has the default code |
| ArApEntries.PaymentBalances | packages/ledger-service/src/arap.ts:421-505 | every accepted payment is posted as a balanced entry |
| ArApEntries.CreditBalances | packages/subledger/src/documents.ts:170-190 | every accepted credit, with its income and tax parts, is posted as a balanced entry of at least two positive lines |
| ArApEntries.RefundBalances | packages/subledger/src/salesPurchase.ts:70-79 | every accepted refund is posted as a balanced entry |
| ArApRuns.ExecutionTiesOutIffKeyIsNew | packages/ledger-service/src/arap.ts:310-505 | an accepted request keeps both control accounts equal to the open documents exactly when its posting key is new or it moves nothing |
| ArApRuns.CreatePostsWhatItMoves | packages/ledger-service/src/arap.ts:310-407 | an invoice or bill moves its control account by what it opens, and the other control not at all |
| ArApRuns.PaymentPostsWhatItMoves | packages/ledger-service/src/arap.ts:421-505 | a payment moves its control account by what it settles |
| ArApRuns.CreditPostsWhatItMoves | packages/ledger-service/src/arap.ts:600-735 | a credit moves its control account by what it takes off; the control-account refusal keeps its income line off it |
| ArApRuns.RefundPostsWhatItMoves | packages/ledger-service/src/arap.ts:745-802 | a refund moves neither control account |
| ArApRefunds.RunTallies | packages/ledger-service/src/arap.ts:421-802 | over every run of payments, credits and refunds of one invoice, taxed or not, refused and repeated requests included: the open amount falls by what was paid and what was waived (credits, and anything taken off again under a used key), the banks gain what was paid less what was refunded, and sales tax moves by the shares of the credits and refunds posted |
| ArApRefunds.RefundsStayWithinIff | packages/ledger-service/src/arap.ts:421-802 | over such a run refunds pay out at most what payments brought in exactly when the refunds posted sum to at most what came off the invoice (total less open, followed from when it was raised) less what was waived |
| ArApRefunds.ReversalsStayWithinTheTax | packages/ledger-service/src/arap.ts:421-802 | credits and refunds that together sum to at most the invoice take back at most the tax it charged |
| ArApRefunds.TwoFullRefundsPayTwice | packages/ledger-service/src/arap.ts:745-802 | any accepted refund of all that came off is accepted again under another id, and pays out and takes back the same again |
| ArApExamples.CreditThenRefundPaysOutTheUnpaid | packages/ledger-service/src/arap.ts:671-802 | an input where both fail: an unpaid invoice of 110, credited in full and refunded in full, pays out 110 nobody paid and takes back 20 of tax where 10 were charged |
| ArApExamples.DoubleRefundPaysTwice | packages/ledger-service/src/arap.ts:421-802 | another: an invoice paid once and refunded in full twice pays out twice what it took in |
| ArApRuns.StepTiesOutIffKeyIsNew | packages/ledger-service/src/arap.ts:310-802 | one request keeps the tie-out exactly when it does not move an open amount under a used key |
| ArApRuns.RunTiesOutIffKeysAreNew | packages/ledger-service/src/arap.ts:310-802 | over every run off the control accounts: tied at every step, with every open amount between zero and total and every status right, exactly when no request moves an open amount under an entry already posted with its key and fingerprint |
| ArApRuns.FreshRunTiesOut | packages/ledger-service/src/arap.ts:310-802 | so when no planned key is in the journal by the time its request runs, the run is tied throughout |
| ArApRuns.FreshRunFromNothingTiesOut | packages/ledger-service/src/arap.ts:310-802 | and so is every such run from an empty journal and no documents |
| ArApRuns.PayingAgainUnderOneIdBreaksTheTie | packages/ledger-service/src/arap.ts:421-505 | paying twice under one id posts once and reduces the open amount twice |
| ArApExamples.PayingTwiceUnderOneId | packages/ledger-service/src/arap.ts:421-505 | the same on concrete books: fifty paid twice under one id |
| ArApControls.StepTiesOutIffHarmless | packages/ledger-service/src/arap.ts:310-505 | whatever a creation or payment names: it keeps the tie-out exactly when it takes nothing off under a used key and, if it posts, no line, charged tax or bank code of it names a control account; the code checks neither |
| ArApControls.RunTiesOutIffHarmless | packages/ledger-service/src/arap.ts:310-802 | a run is tied at every step exactly when each of its requests is so |
| ArApExamples.PayingThroughTheControl | packages/ledger-service/src/arap.ts:421-505 | an input where a payment breaks the tie-out: its bank is the receivable account |
| ArApExamples.InvoicingTheControl | packages/ledger-service/src/arap.ts:310-407 | an input where an invoice does: one of its lines is on the receivable account |
| ArApRuns.RetryCompletesIffSameClock | packages/ledger-service/src/arap.ts:302-407 | a creation cut short after its post is completed by a retry exactly when the retry carries the first clock reading |
| ArApRuns.CreditReversesItsShare | packages/ledger-service/src/arap.ts:619-646 | a credit takes the tax share of exactly its amount back off the tax account |
| ArApRuns.PartialCreditsReverseTheTax | packages/ledger-service/src/arap.ts:630-632 | k amounts that make up a taxed invoice reverse at most its tax and at least its tax less k-1 |
| ArApRuns.CreditingInPartsReversesTheTax | packages/ledger-service/src/arap.ts:619-735 | over every run of k credits that settles a taxed invoice, the tax account comes back to within k-1 minor units, never over |
| Close.BuildCloseChecklist | packages/close/src/close.ts:59-113 | every pushed check passes exactly when there are reconciliations and controls, all balanced, signed off where required, and the trial balance balances |
| Close.GatePassesIffEverythingTies | packages/close/src/close.ts:59-113 | the same of the gate: no check fails exactly on complete evidence, so an empty list of results never passes |
| Close.InMemoryFinancialPackageStore.Save | packages/close/src/packageStore.ts:58-67 | verified, balanced and not different from what is sealed, or refused |
| Close.InMemoryFinancialPackageStore.Get | packages/close/src/packageStore.ts:69-73 | answers exactly when what is stored still verifies |
| Close.CloseEngine.PublishClose | packages/close/src/closeState.ts:225-297 | gate, duties, lock, save, record, in that order, over the three stores |
| Close.CloseEngine.Request | packages/close/src/closeState.ts:308-336 | records a reopen request on a published period |
| Close.CloseEngine.Approve | packages/close/src/closeState.ts:348-372 | unlocks on the approval of someone else |
| CloseEffects.GateIff | packages/close/src/closeState.ts:225-264 | the gate passes exactly when nothing failed, or anything but the trial balance did and a reason is given; a blank reason is refused; what failed is what the override records |
| CloseEffects.PublishAcceptedIff | packages/close/src/closeState.ts:225-297 | a publish is accepted exactly through the gate, by another than the preparer, with a package the store takes; a repeat exactly with the same fingerprint |
| CloseEffects.PublishIsRecorded | packages/close/src/closeState.ts:225-297 | it locks its period and no other, stores the package, and records who, when, on which checks and over what |
| CloseEffects.RequestIsRecorded | packages/close/src/closeState.ts:308-336 | a request is accepted exactly on a published period with a reason; it records who asked and unlocks nothing |
| CloseEffects.ApprovalReopens | packages/close/src/closeState.ts:348-372 | an approval is accepted exactly after a request by someone else; then the period reads open and every other status is as it was; a refused one changes nothing |
| CloseEffects.ChecklistNames | packages/close/src/close.ts:59-113 | each check passes exactly on its own evidence: reconciliations balanced, signed off where required, control accounts balanced, trial balance balanced |
| CloseEffects.OffendersAreNamed | packages/close/src/close.ts:59-113 | a failed check names exactly the accounts that fail it |
| CloseRuns.EveryRunKeepsInv | packages/close/src/closeState.ts:225-372 | over every run, refused calls included: published or reopen-requested means locked with the sealed package of the state's fingerprint; that fingerprint never changes; histories only grow, in the order of the protocol; the trial balance passed and what failed is what the override records |
| CloseRuns.ApprovalsFollowRequests | packages/close/src/closeState.ts:348-372 | in a lawful history every approval directly follows a request by someone else |
| CloseRuns.RefusedPublishLocksIffItReachedTheStore | packages/close/src/closeState.ts:265-270 | corollary of `Close.CloseEngine.PublishClose`: a refused publish changes some period's status exactly when it got as far as its writes on an open period |
| CloseRuns.ChangedBooksCannotBeResealed | packages/close/src/closeState.ts:265-270 | corollary of `Close.CloseEngine.PublishClose`: after a reopen, changed books are refused and the period is left locked while its state says reopened |
| CloseRuns.OneFingerprintPerPeriod | packages/close/src/packageStore.ts:58-67 | no later publish of a sealed period is accepted with another fingerprint |
| Cutover.Backend.Append | packages/ledger-service/src/bookOfRecord.ts:116-134 | an append is refused exactly by the guard and otherwise returns the entry of its key |
| Cutover.Backend.PlanCutover | packages/ledger-service/src/cutover.ts:233-322 | the plan has no blocker exactly when the cutover may go ahead, and reports the balances it will be signed on |
| Cutover.Backend.ControlBalance | packages/ledger-service/src/cutover.ts:281-303 | the subtype's balance is that of the journal's lines, and at most one account holds it exactly when the count says so |
| Cutover.Backend.ExecuteCutover | packages/ledger-service/src/cutover.ts:335-394 | runs exactly when the plan is clean, signed and ties or is accepted; writes the listed writes in order, or nothing |
| CutoverEffects.CutoverAcceptedIff | packages/ledger-service/src/cutover.ts:233-360 | every condition of an accepted cutover, the tie of open items to the ledger or its acceptance included |
| CutoverEffects.LiveBooksAreLocked | packages/ledger-service/src/cutover.ts:361-394 | after every prefix of the writes, if RGNR8 keeps the books then every month through the cutover's is locked |
| CutoverEffects.CompletedCutoverLocks | packages/ledger-service/src/cutover.ts:335-394 | a completed cutover locks every month through its own, leaves a later one as it was exactly when that was not re-opened below a higher mark, and leaves a live record of what was signed |
| CutoverEffects.OpenItemsAreDocuments | packages/ledger-service/src/cutover.ts:204-222 | every open item taken over is afterwards an unpaid document for what it left open, under its party, on the control account of its kind |
| CutoverEffects.PartyIsEnsured | packages/ledger-service/src/cutover.ts:361-386 | a party already there is kept, any other is added under the planned name |
| CutoverEffects.AppendGoesThroughIff | packages/ledger-service/src/bookOfRecord.ts:64-135 | an append goes through exactly when it is a copy and no cutover stands, or is no copy and RGNR8 keeps the books; a refused one changes nothing |
| Cutover.Backend.BackOutCutover | packages/ledger-service/src/cutover.ts:422-435 | refused exactly by its blocker, else deletes the cutover's documents and restores the book of record |
| CutoverRuns.CrashedCutoverBacksOut | packages/ledger-service/src/cutover.ts:335-435 | after any non-empty prefix of the cutover's writes, back-out is accepted and restores documents, payments, journal and book of record exactly |
| CutoverRuns.PartWayBacksOut | packages/ledger-service/src/cutover.ts:403-435 | what a back-out leaves behind is exactly the parties, the locks, the cleared open items and its record |
| CutoverRuns.CrashedBackOutBacksOut | packages/ledger-service/src/cutover.ts:422-435 | a back-out stopped part-way can be run again with the same result |
| CutoverRuns.CompletedCutoverTiesOut | packages/ledger-service/src/cutover.ts:335-394 | a completed cutover with no differences, whatever documents were there, makes RGNR8 the book of record and raises open invoices and open bills by exactly the ledger's receivables and payables |
| CutoverRuns.FirstCutoverTiesOut | packages/ledger-service/src/cutover.ts:335-394 | from books without documents, open invoices and bills then equal receivables and payables |
| CutoverRuns.EveryRunKeepsInv | packages/ledger-service/src/bookOfRecord.ts:64-135 | over every run, interrupted cutovers included: while QuickBooks is the book of record the journal holds only its copies |
| CutoverRuns.EntriesCameInTurn | packages/ledger-service/src/bookOfRecord.ts:116-134 | each copy was appended while no cutover was active, anything else while RGNR8 was the book of record |
| Ingestion.IngestionPipeline.Ingest | packages/ingestion/src/pipeline.ts:57-133 | takes in, settles and pairs off as specified, keeping ids unique and the seen set exact |
| Ingestion.IngestionPipeline.ResolvePendingPosted | packages/ingestion/src/pipeline.ts:144-159 | settles each added row's pending row at most once |
| Ingestion.IngestionPipeline.DetectInternalTransfers | packages/ingestion/src/transfers.ts:16-56 | the nested loops give each row the first later row it matches; a date that does not parse is too far from nothing |
| IngestEffects.IngestSupersedes | packages/ingestion/src/pipeline.ts:144-159 | after every call each pending row that a row the call added names is superseded by the first that does, linked from it and no longer active; every other row is superseded exactly if it was; the call reports how many |
| IngestEffects.IngestTakesRecords | packages/ingestion/src/pipeline.ts:57-115 | a call adds one row for each new key its records bring, holding the first record with the key, and counts every other a duplicate |
| IngestEffects.RawsAreArchived | packages/ingestion/src/pipeline.ts:57-115 | every raw record is archived in order, and each one refused leaves an issue |
| IngestEffects.TransfersAreCounted | packages/ingestion/src/transfers.ts:16-56 | detection flags two rows for each transfer it counts |
| IngestEffects.EveryRowHoldsItsRecord | packages/ingestion/src/pipeline.ts:57-133 | over every sequence of calls from rows that do, the empty pipeline among them, each row is known by its record's key, flows as its sign says, and is a transfer only when flagged |
| IngestEffects.KeysIdentifyRecords | packages/ingestion/src/dedupe.ts:20-33 | records with ids, of providers and accounts without a colon, have one key exactly when provider, account and id agree |
| IngestEffects.ContentsIdentifyRecords | packages/ingestion/src/dedupe.ts:20-33 | records of one account without ids, their texts free of the delimiter and their digests without collisions, have one key exactly when date, amount, currency and description agree |
| IngestionRuns.EveryRunRests | packages/ingestion/src/pipeline.ts:57-133 | over every sequence of calls, flagged rows fall into equal and opposite live pairs across accounts, within the window wherever both dates parse, and no eligible pair is left |
| IngestionRuns.EveryRunFromEmptyRests | packages/ingestion/src/pipeline.ts:57-133 | so from an empty pipeline every sequence of calls ends that way |
| IngestionRuns.TransfersLeaveCashAlone | packages/ingestion/src/transfers.ts:27-56 | internal transfers never change how much cash there is, in any currency, and are never superseded |
| IngestionRuns.IngestKeepsRows | packages/ingestion/src/pipeline.ts:57-133 | rows never leave and never move |
| IngestionRuns.IngestedOnceIsIngested | packages/ingestion/src/pipeline.ts:57-133 | records ingested before, whatever came between, archive, add, supersede and match nothing |
| Ofx.ParseOfx | packages/ingestion/src/statements.ts:46-69 | one block per transaction, skipping those without date or amount |
| Ofx.SplitRendered | packages/ingestion/src/statements.ts:31-36 | the pieces a search can start at come back from a rendered document |
| OfxRoundTrip.ParsingThePrintGivesTheImages | packages/ingestion/src/statements.ts:46-146 | parsing a printed statement gives each transaction's image in order, whatever the escaped texts; STMTTRNRS is never taken for STMTTRN |
| OfxRoundTrip.ComesBackIffExportable | packages/ingestion/src/statements.ts:88-146 | among descriptions of at most 32 characters, exactly the exportable transactions come back as they were |
| OfxRoundTrip.OfxRoundTrips | packages/ingestion/src/statements.ts:46-146 | exportable statements round-trip: same transactions, same order, none lost |
| OfxEffects.ParsedIs | packages/ingestion/src/statements.ts:46-69 | a block is read exactly when it has a date and an amount, and as what it says |
| OfxEffects.TagValueIs | packages/ingestion/src/statements.ts:31-36 | a tag's value is that of the first piece with the tag; none exactly when no piece has it |
| OfxEffects.BlocksAreStarts | packages/ingestion/src/statements.ts:46-69 | there is one block for each transaction start |
| OfxEffects.CurrencyIs | packages/ingestion/src/statements.ts:46-69 | the currency is the three letters of the first declaration that has them |
| OfxEffects.DatesBoundTheStatement | packages/ingestion/src/statements.ts:106-146 | a printed statement starts on the first of its transactions' dates and ends on the last |
| Statements.CashFlowOf | packages/financial-statements/src/statements.ts:267-334 | one pass over the union of accounts sums each section's movements, and gives the cash held at the beginning and at the end |
| StatementLaws.NetIncomeIsEarnings | packages/financial-statements/src/statements.ts:78-102 | net income is what revenue and expense accounts hold, however expenses are split |
| StatementLaws.IncomeStatementFigures | packages/financial-statements/src/statements.ts:78-102 | each figure of the income statement is what the accounts of its class hold |
| StatementLaws.BalanceSheetFigures | packages/financial-statements/src/statements.ts:138-186 | each figure of the balance sheet likewise, retained earnings and the period's income apart |
| StatementLaws.TypeTotalsMatch | packages/financial-statements/src/accounts.ts:107-117 | a signed trial balance reports type by type what the window's lines add up to |
| StatementLaws.WindowsSplit | packages/ledger-service/src/consolidation.ts:1020-1036 | everything through a date is everything through the day before the window and the window |
| StatementLaws.BalanceSheetBalances | packages/financial-statements/src/statements.ts:138-186 | with the period's income and all income before it, the residual is zero for every ledger and window |
| StatementLaws.ReconciledIffNetIncomeIsEarnings | packages/financial-statements/src/statements.ts:267-334 | for any classifier, the sections tie to cash exactly when net income is what non-cash revenue and expense moved by |
| StatementLaws.CashFlowReconciles | packages/financial-statements/src/statements.ts:267-334 | for every ledger, window and classifier whose cash is not revenue or expense, the cash flow reconciles |
| Consolidation.TranslationIsNearest | packages/ledger-service/src/consolidation.ts:578-584 | within half a minor unit of the exact product, and odd |
| Consolidation.TranslationIsNearlyAdditive | packages/ledger-service/src/consolidation.ts:578-584 | additive to within one minor unit |
| Consolidation.TranslateTrialBalance | packages/ledger-service/src/consolidation.ts:640-685 | translates each line at its class rate, audits it, and plugs the gap into one CTA line |
| Consolidation.TranslatedSheetFoots | packages/ledger-service/src/consolidation.ts:640-685 | the translated sheet with its CTA line sums to zero |
| Consolidation.CtaIsWithinHalfAUnitPerLine | packages/ledger-service/src/consolidation.ts:640-685 | the CTA is within half a unit per line of the exact gap of the three rates |
| Consolidation.SingleRateCtaIsRounding | packages/ledger-service/src/consolidation.ts:636-638 | at one rate, zero-sum books of n lines carry a CTA of at most n/2 |
| TranslationLaws.SingleRateCtaIsZeroIff | packages/ledger-service/src/consolidation.ts:636-638 | at one rate zero-sum books carry no CTA exactly when what rounding drops line by line sums to zero |
| TranslationLaws.WholeProductsCarryNoCta | packages/ledger-service/src/consolidation.ts:636-638 | so none when the rate turns every amount into whole minor units |
| TranslationLaws.PairedBooksCarryNoCta | packages/ledger-service/src/consolidation.ts:578-584 | and none when amounts pair off into opposites, at any one rate |
| TranslationLaws.TranslatedTotalIsExact | packages/ledger-service/src/consolidation.ts:640-685 | at any three rates the translated lines add up to the exact products less what rounding drops |
| TranslationLaws.ExactByClass | packages/ledger-service/src/consolidation.ts:640-685 | the exact total puts assets and liabilities at the closing rate, equity at the historical one and revenue and expense at the average one |
| TranslationLaws.CtaIsTheRateGap | packages/ledger-service/src/consolidation.ts:640-685 | the sum the CTA line offsets is within half a minor unit per line of assets and liabilities at the closing rate, equity at the historical one and revenue and expense at the average one |
| Consolidation.SingleRateCtaNeedNotBeZero | packages/ledger-service/src/consolidation.ts:636-638 | an input where the CTA at one rate is not zero, contrary to the comment |
| Consolidation.UnitRatesChangeNothing | packages/ledger-service/src/consolidation.ts:636-638 | at the unit rate nothing changes |
| Consolidation.ConsolidateTrialBalances | packages/financial-statements/src/consolidation.ts:67-111 | refused exactly without entities, with mixed currencies or unbalanced eliminations; every account is at its sum over entities and eliminations |
| Consolidation.SoundEntitiesMakeASoundGroup | packages/financial-statements/src/consolidation.ts:67-111 | zero-sum entities make a zero-sum group |
| Consolidation.SheetIsOutByIncome | packages/ledger-service/src/consolidation.ts:1024-1036 | a sheet that foots is out by exactly the income its windows lose between them |
| Consolidation.TranslatedSheetMayNotBalance | packages/ledger-service/src/consolidation.ts:1024-1036 | an input where a translated sheet is out by rounding alone |
| TranslationLaws.TranslatedSheetBalancesIff | packages/ledger-service/src/consolidation.ts:1024-1036 | for all books, windows and rates: a translated sheet is out by at most one minor unit per revenue or expense line, and balances exactly when what rounding drops from those lines in the end window is what it drops in the other two |
| GroupSheets.GroupSheetBalancesIff | packages/ledger-service/src/consolidation.ts:1024-1036 | members' books together, each at its own rates: out by at most one minor unit per revenue or expense line of theirs, and balanced exactly when what their rounding drops cancels over the group |
| GroupSheets.ConsolidatedSheetBalancesIff | packages/ledger-service/src/consolidation.ts:974-1036 | with rows merged by account and each window's eliminations added: the residual is the rounding gap and the revenue and expense part of the eliminations that the windows do not share out, nothing else, and the sheet balances exactly when the two cancel |
| GroupSheets.ManualEliminationsBalanceIff | packages/ledger-service/src/consolidation.ts:989-1017 | in one currency, with the manual eliminations in all three windows, the sheet is out by exactly their revenue and expense part: it balances exactly when that nets to zero |
| GroupSheets.EliminatedIncomePutsTheSheetOut | packages/ledger-service/src/consolidation.ts:989-1036 | an input: eliminating five of revenue against cash puts a one-currency sheet out by five |
| Conversion.BuildOpeningBalanceEntry | packages/ledger-kernel/src/cutover.ts:63-119 | one line per balance, in one pass, with the residual in opening equity |
| Conversion.OpeningEntryBalances | packages/ledger-kernel/src/cutover.ts:63-119 | built exactly from lists in one currency with a balance in them; always balanced; every account at its balance |
| Conversion.SingleLineIsNeverRefused | packages/ledger-kernel/src/cutover.ts:102-105 | the refusal of a single line is never reached |
| Conversion.CutoverRunner.ExecuteCutover | packages/ledger-kernel/src/cutover.ts:147-182 | posts once, then locks the month and all before it |
| Conversion.CutoverRunsOnce | packages/ledger-kernel/src/cutover.ts:147-182 | run again for the same date, with any balances, it changes nothing and returns the first entry |
| Conversion.BuildGoLiveChart | packages/ledger-kernel/src/goLive.ts:134-190 | marks or brings over each source account and ensures opening equity, in one pass |
| Conversion.GoLiveChartIsPlain | packages/ledger-kernel/src/goLive.ts:134-190 | the built chart is accepted by the kernel and has every source code |
| ConversionEffects.GoLiveChartHolds | packages/ledger-kernel/src/goLive.ts:134-190 | the built chart is the template marked where a source has the number, then one account for every other source, then opening equity if nothing has its number |
| ConversionEffects.OpeningIsDated | packages/ledger-kernel/src/cutover.ts:63-119 | the opening entry is for the cutover date, in its month, under the one key of that date |
| Conversion.GoLiveReproducesTheSource | packages/ledger-kernel/src/goLive.ts:208-247 | on an empty ledger go-live reproduces the source account by account and locks every month through the cutover |
| Conversion.GoLiveRunsOnce | packages/ledger-kernel/src/goLive.ts:208-247 | a go-live that succeeded changes nothing when run again |
| Conversion.ResidualIsTheColumnsDifference | packages/ledger-kernel/src/goLive.ts:264-280 | the residual is the difference of the source's columns |
| YearEnd.FiscalYearsTile | packages/close/src/yearEnd.ts:53-70 | each fiscal year starts the day after the last one ends |
| YearEnd.BuildYearEndClose | packages/close/src/yearEnd.ts:106-159 | one pass zeroes each revenue and expense row and balances with retained earnings |
| YearEnd.ClosingBalancesIffThereIsSomethingToClose | packages/close/src/yearEnd.ts:106-159 | the closing journal balances exactly when some revenue or expense account has a balance |
| YearEndSheets.CloseIsAcceptedIff | packages/ledger-kernel/src/journal.ts:20-73 | the engine posts the close under a new key exactly when the month is open, there is something to close, and every account it posts to is active and in its currency; under a used key it answers exactly when that entry reads alike |
| YearEndSheets.HiddenAccountRefusesTheClose | packages/ledger-kernel/src/journal.ts:34 | an input it refuses: on sound books, an account at zero over all time was made inactive and still has a balance in the year |
| YearEnd.CloseZeroesEarnings | packages/close/src/yearEnd.ts:106-159 | posted inside the window it zeroes every revenue and expense account, moves retained earnings by the income and nothing else |
| YearEnd.CloseKeepsTotalEquity | packages/close/src/yearEnd.ts:106-159 | whichever window is read, equity and earnings together are what they were |
| YearEndSheets.CloseKeepsSheetEquity | packages/ledger-service/src/consolidation.ts:1024-1036 | so a balance sheet fed its three windows, over any dates, shows the same total equity before and after the close |
| YearEnd.ClosingTwiceAppendsNothing | packages/close/src/yearEnd.ts:106-159 | closing closed books has nothing to close and appends nothing |
| GlDetail.GeneralLedgerDetail | packages/financial-statements/src/glDetail.ts:78-163 | the two passes report every asked-for charted account with activity, each as specified |
| GlDetail.DetailAgreesWithTheNet | packages/financial-statements/src/glDetail.ts:78-163 | closing is opening plus changes, the last running balance, and the net as of the window's end |
| GlDetail.RowShows | packages/financial-statements/src/glDetail.ts:78-163 | a row shows its entry, its line's amount in its own column, and the balance moved by it |
| Readings.NetByAccountSql | packages/ledger-postgres/src/pgLedgerStore.ts:208-241 | one row per account with any joined line, at the sum of its lines |
| Readings.PushdownMatchesTheList | packages/ledger-postgres/src/pgLedgerStore.ts:208-241 | on every table state reached by appends, the aggregate has the journal's accounts and nets |
| Readings.NetByDimension | packages/ledger-kernel/src/dimensions.ts:97-111 | every line lands in the bucket of its tag value, netted per account |
| Readings.BucketsAddUp | packages/ledger-kernel/src/dimensions.ts:97-111 | the buckets of an account add up to its undivided net |
| Readings.TagIsTheFirst | packages/ledger-kernel/src/dimensions.ts:97-111 | a line's tag is the value of its first dimension of the key, and none exactly when it has none |
| Readings.ReadingsAgree | packages/ledger-postgres/src/pgLedgerStore.ts:199-241 | journal, database and dimension buckets give one net |
| Calendar.AddBusinessDays | packages/close/src/calendar.ts:52-65 | terminates for every finite set of holidays and returns the least day with exactly n business days after the start |
| Calendar.MoreDaysIsLater | packages/close/src/calendar.ts:52-65 | corollary of `Calendar.AddBusinessDays`: strictly increasing in n, and unique |
| Calendar.BusinessDayIff | packages/close/src/calendar.ts:52-65 | business days are exactly Monday to Friday without the holidays |
| Calendar.BusinessDaysAreCounted | packages/close/src/calendar.ts:52-65 | the count is the size of the set of business days after the start |
| Calendar.BuildCloseCalendar | packages/close/src/calendar.ts:77-84 | each task is due its offset in business days after period end |
| Calendar.DueDatesRespectDependencies | packages/close/src/calendar.ts:77-84 | corollary of `Calendar.BuildCloseCalendar`: when offsets respect dependencies, so do due dates |
| Calendar.DefaultTemplateIsOrdered | packages/close/src/calendar.ts:34-43 | the default template lists dependencies earlier, with no larger offsets |
| Calendar.CloseCalendarStatus | packages/close/src/calendar.ts:111-149 | counts the states and picks the earliest due actionable task, first listed among equals |
| Calendar.StatesMean | packages/close/src/calendar.ts:111-149 | done; else blocked exactly when something it depends on is not done; else overdue, due today or upcoming as its day is before, on or after the date asked for |
| Calendar.StatesAreCounted | packages/close/src/calendar.ts:111-149 | each count is the number of tasks in that state |
| Calendar.SomethingIsNextUntilComplete | packages/close/src/calendar.ts:111-149 | with dependencies listed earlier, there is a next task exactly while something is undone |

## Left out

- HTTP routes, `isPostingRoute`, deploy scripts, HTML rendering, JSON shapes and the command line: presentation and I/O.
- SHA-256, HMAC, djb2 and the party slug: any function of the content they are given.
- Clocks: `postedAt`, `at`, `now` and the cutover's working date (`businessToday`) are parameters.
- SQL text, pooling, row-level security, migrations and encryption: only the table effects, the counter row lock and the unique constraints are kept; a statement that fails for any other reason is not modelled.
- Order of presentation: rows sorted by account code or name are sets or maps here; `localeCompare` is modelled as order of code units where a choice depends on it (the lowest control account code).
- Messages: errors are named cases; close checks carry their evidence as data instead of label and detail text.
- Due dates, terms, aging and party details of documents; dimension registries and their validation before an AR/AP post.
- Dates are calendar integers (year, month, day) and months their prefix, so text that is not a date is an absent date (a bank feed keeps its text, see `Ingestion`); fingerprints print dates and periods as numerals. A memo that is absent and one that is empty are not told apart, so in the general ledger detail an empty line memo falls back to the entry's memo, which the code does only for an absent one.
- Composite store keys are tuples: two tenants, kinds or ids whose joined texts collide are not modelled.
- Tenants side by side: the kernel classes keep every tenant's state; `Cutover.Backend` holds one account's stores as fields of one object.
- The subledger's builders beyond the ones AR/AP calls, catalog items, receipts, checks and deposits.
- Billing, CRM, attachments, bank history, budgets, recurring detection, feed posting, CSV statements and connectors: they would add easier members or rest on code outside the core.
- Intercompany netting in `consolidate` and the group and elimination stores: the eliminations are an input, and their sum is what is checked.
- `FxRateTable`, `revalue`, `periodCompare`, statement presentation lines and the gross-margin ratio.
- `accountLedger` and `opsCloseStatus`: projections of what is modelled.
- Admin routes that change the book of record or unlock periods outside the modelled calls, and manual journal entries to control accounts.
- PostingEngine.Engine.Post: sequential; a period locked between the status check and the append is not modelled, so period safety is stated for calls that do not overlap.
- Fingerprint.FingerprintIdentifiesPayload: one-way for currencies, memos and lines, where a delimiter makes the text ambiguous in some contexts only; exact for provenance (`Fingerprint.ProvenanceIsMistakenIff`).
- GroupSheets.ConsolidatedSheetBalancesIff: for members that agree on the type of an account they share; where they do not, the source keeps the first member's type.
- ArApRefunds.RunTallies: for requests whose bank accounts, tax accounts and the rest are kept apart, because the sums over shared accounts would not tell them from one another.
- ArApControls.RunTiesOutIffHarmless: exact for creations and payments; credits, refunds and plain journals are those that keep off the control accounts.
- ArApRuns.RetryCompletesIffSameClock: for payloads free of the fingerprint's delimiters, because with delimiters two payloads may collide.
- CloseRuns.EveryRunKeepsInv: other code that unlocks a period is not among the steps.
- Close.InMemoryFinancialPackageStore.Save: the SQL store keeps the first envelope of an identical package where the in-memory one keeps the last; both have one fingerprint.
- OfxRoundTrip.ParsingThePrintGivesTheImages: currency, account type, server date, balance, dates and amounts are printed unescaped, so they must not contain "<".
- OfxRoundTrip.ComesBackIffExportable: only descriptions of at most 32 characters, because longer ones are cut. Characters are code points, where the cut counts UTF-16 units: 17 to 32 characters outside the basic plane are cut by the code and come back here.
- IngestEffects.ContentsIdentifyRecords: for texts free of the delimiter and digests that do not collide, because djb2 can collide.
- Conversion.GoLiveReproducesTheSource: the template is any list of active root accounts named by their codes; the template texts are not modelled.
- Calendar.AddBusinessDays: works on day numbers; `Dates.DayNumber` relates them to calendar dates.
