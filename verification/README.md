# Wager service: a verified model

The service keeps player wallets and processes what game providers submit: bets, wins, losses, refunds and rollbacks,
over HTTP or through a broker. Each use case runs in one database transaction that writes wallets, wager transactions,
an append-only ledger, an inbox of seen messages and an outbox of events. This project models that engine and proves
what it keeps true over every run, and where the promises stop.

## How it is laid out

- **Domain.** `Int64`, `Money`, `Wallet`, `Ledger`, `Wager`: wraparound arithmetic, the decimal parser and printer, the
  wallet aggregate, ledger entries and the transaction status machine. Aggregates that the service updates in place are
  classes.
- **Store and use cases.** `Store` holds the tables as one value, `World`, and a `Database` class whose methods are the
  repositories' statements. `Engine` states what each use case computes on that value. `ProcessWager`, `ResolvePending`
  and `OpenWallet` are the use cases as classes over a `Database`, statement by statement, each proved to compute its
  `Engine` function; the resolver has its own copy of the reversal logic, as in the service.
- **Serial runs.** `Runs` makes every use-case transaction one step (its commit takes effect or not) and
  shows that a step changes the tables in one of six ways. `Balances`, `References`, `Conservation`, `Idempotency`,
  `StatusSafety`, `Announcements`, `Agreement`, `Expiry`, `Decisions`, `Dating` and `Polling` prove properties of all
  finite runs; `Decisions` and `Dating` also say, field by field, what a step writes.
  `Scenarios` holds concrete runs in which a promise fails or a bound is met.
- **Interleavings.** `Interleaving` lets any number of clients and resolvers read wallets, check reversals and list
  parked rows at any time, hold on to what they saw, and commit later. `Payback` states on the ledger what "at most one
  reversal" means and when each commit keeps it; `Race` holds two concrete interleavings in which a stake is given back
  twice. `Recovery` covers commits between a command's lookups and its insert.
- **Around the engine.** `Ordering`, `Pagination`, `Formats` and `Browsing` for the ledger pages; `Backoff`, `Outbox` and
  `Delivery` for the outbox worker; `Consumer` and `Redelivery` for the broker consumer.

## Where the code and its promises part

- *At most one reversal per bet* (ARCHITECTURE.md, section 10) means that no two ledger entries belong to reversals of the
  same reference, `Payback.PaidBackOnce`. It holds in every serial run, `Payback.RunPaysBackOnce`. In general the engine
  counts rows, before the wallet is locked, and the promise can fail: two clients count before either commits
  (`Race.ReversalsCanRace`), or a resolver with an outdated listing overwrites the row of a processed reversal, whose entry
  stays, so that the next reversal counts none (`Race.OverwriteHidesReversal`). Both end 100 above the opening balance, and
  in the second the rows look right. For each kind of commit the exact condition is proved, over the tables before it: the
  promise is kept if and only if no entry reverses the reference yet or the commit moves no money, because its checks fail
  or its wallet row does not cover the amount. See `Payback.VettedReversesOnceExactly`, `ClearedReversesOnceExactly`,
  `AttemptPaysBackOnceExactly`, `SubmitPaysBackOnceExactly`, and `Payback.PaidBackOnceExactly` for whole interleavings.
- *A parked reversal is resolved when its bet arrives, or rejected when its retry budget is used up* (the service's
  README.md, lines 120 to 124). The budget is never consulted: `Expiry.BudgetIsIgnored` shows that it has no effect on
  any run, `Expiry.NotFoundExactly` that only the maximum age rejects, and `Scenarios.WaitingBoundIsReached` a run that
  attains the bound of `Expiry.WaitingIsBounded`, more attempts than any smaller budget allows. Nor is arrival enough:
  `Expiry.ArrivalDecides` shows that an attempt on a row whose reference is stored succeeds if and only if the wallet can
  take the movement called for; otherwise the row stays parked, does not expire, and stops every poll that lists it first
  (`Scenarios.FoundIsNotEnough`, a credit that does not fit). And the SQL
  query lists only rows that have a retry time, which only an attempt sets: `Expiry.SqlListsNothing` shows that a
  resolver fed by it never attempts anything. The other theorems about the resolver use the rule of the in-memory
  repository beside the use case (internal/application/fakes_test.go, lines 273 to 291): a row that was never scheduled
  is due.
- *Ended rows never change* holds in every serial run, `StatusSafety.RowsAreSafe`, but the resolver lists rows outside its
  transaction and never reads them again. `StatusSafety.StaleAttemptRespectsExactly` gives the exact condition under which
  an attempt on an outdated snapshot leaves the ended row alone: the reference is still missing and the row is younger
  than the maximum age. Otherwise a rejected row can come back to life and move money, `StatusSafety.StaleSnapshotRevives`
  with the run of `Scenarios.SecondResolverRevives`, and a processed one can be marked rejected while its movement stays
  in the ledger, `StatusSafety.StaleSnapshotOverwrites` with `Scenarios.SecondResolverOverwrites`. The balances stay
  explained even then, `Interleaving.NoLostUpdate`, but a stake can be given back twice, as above.
- *Reusing an idempotency key is refused* unless the message itself was seen before, in which case only the key is looked
  up: `Idempotency.ReuseIsRefused` is the exact condition, `Redelivery.SeenMessageAnswersForAnotherKey` the case in which
  the answer is another command's transaction, `Scenarios.MessageAnsweredForAnotherBet` a run with two bets.
- *A replay gives the first answer* unless that answer was "waiting" and the row has ended since, or the command is a loss
  in a currency other than its wallet's (a stored balance takes the transaction's currency, and a loss does not compare
  currencies). `Idempotency.ReplayTellsTheSame` shows that these two are the only exceptions; `Scenarios.ParkedReplayDiffers`
  and `Scenarios.ReplayCanDiffer` are runs that meet them.
- *A concurrent duplicate is replayed* (internal/application/process_wager_transaction.go, lines 194 to 204) only by a
  database that answers after a failed insert, which a Postgres transaction does not: `Recovery.RecoveryAnswersAsNow`
  covers both and shows that the recovery is otherwise what looking again would have given.
- *Printing and parsing an amount* are inverse except at the smallest int64: `MoneyDomain.PrintParseRoundTrip`.
- *A page can be asked for with any limit* but the largest int64, for which the limit plus one wraps and the query fails:
  `Pagination.PageFailsExactly`.
- *A failing message ends in the dead-letter queue* unless publishing it there fails, in which case it is acked and gone:
  `Redelivery.LostExactly`.

## Model

| member | source | states |
|---|---|---|
| Int64.CheckedAddIsExact | internal/domain/money/money.go:212-218 | the overflow test after a wrapped sum accepts exactly the sums that fit int64, and then the sum is exact |
| Int64.CheckedNegateIsExact | internal/domain/money/money.go:220-225 | negation fails exactly for the smallest int64 |
| Int64.CheckedMulIsExact | internal/domain/money/money.go:227-236 | dividing the wrapped product back detects every overflow if and only if the product is not the smallest int64 times -1 |
| MoneyDomain.AddIsExact | internal/domain/money/money.go:124-133 | addition fails exactly on a currency mismatch or a sum outside int64 |
| MoneyDomain.SubtractIsExact | internal/domain/money/money.go:135-148 | subtraction fails exactly on a currency mismatch, a smallest-int64 operand or a difference outside int64 |
| MoneyDomain.ParseAcceptsExactly | internal/domain/money/money.go:47-87 | a text is accepted if and only if it is an optional minus, digits, a dot and two digits of magnitude at most the largest int64, and yields the value it denotes |
| MoneyDomain.ParseErrsExactly | internal/domain/money/money.go:47-87 | a refused text is an overflow if and only if it denotes something, and otherwise told apart by currency, emptiness or format |
| MoneyDomain.PrintParseRoundTrip | internal/domain/money/money.go:176-188 | parsing what was printed gives the amount back for every amount but the smallest int64, which overflows |
| MoneyDomain.CanonicalSpelling | internal/application/process_wager_transaction.go:498-511 | two accepted spellings enter the payload hash alike if and only if they denote the same value, leading zeros and "-0.00" included |
| MoneyDomain.ExternalAmountAccepts | internal/domain/money/money.go:89-98 | a provider's amount is accepted if and only if it denotes a non-negative value in range |
| WalletDomain.Wallet.New | internal/domain/wallet/wallet.go:26-41 | a wallet is created exactly for set identifiers and a non-negative balance, at version 1 |
| WalletDomain.Wallet.Debit | internal/domain/wallet/wallet.go:80-99 | the difference in exact arithmetic becomes the balance and the version goes up, or the object is untouched and the error is the first that applies: currency, sign, range, balance |
| WalletDomain.Wallet.Credit | internal/domain/wallet/wallet.go:101-117 | the sum in exact arithmetic becomes the balance and the version goes up, or the object is untouched and the error is the first that applies: currency, sign, range |
| WalletDomain.Wallet.CanDebit | internal/domain/wallet/wallet.go:119-128 | predicts exactly whether a debit would succeed: the currency is the same, and the amount positive and covered |
| LedgerDomain.NewIsExact | internal/domain/ledger/entry.go:37-73 | an entry is accepted exactly when its identifiers are set, its amount is positive, the three amounts share a currency and the balances differ by the signed amount; otherwise the error tells which of these fails |
| WagerDomain.Transaction.NewExternal | internal/domain/wager/transaction.go:94-150 | passes if and only if the parameters are submittable, stated as a plain conjunction; gives a pending transaction holding them, and tells a wrong kind from any other fault |
| WagerDomain.FaultsAreExact | internal/domain/wager/transaction.go:94-150 | the ordered checks find no fault exactly in what is submittable: a provider kind, all identifiers and strings set, a reference where one is demanded and none where it is forbidden, an amount of the right sign |
| WagerDomain.Transaction.MarkProcessed | internal/domain/wager/transaction.go:263-271 | only a transaction that has not ended can be processed; status, balance and time are set and nothing else changes |
| WagerDomain.Transaction.MarkRejected | internal/domain/wager/transaction.go:273-284 | only a transaction that has not ended can be rejected, and only with a code; status, code and time are set and nothing else changes |
| WagerDomain.Transaction.AttachResolvedReference | internal/domain/wager/transaction.go:243-252 | a reference is attached exactly before the end and never to nil |
| Store.Database.SaveWallet | internal/infra/postgres/wallet_repository.go:82-95 | the write passes if and only if the wallet is stored with the expected version, the balance is not negative and the version is positive; then balance, version and time of that row change and nothing else anywhere |
| Store.Database.CreateTx | internal/infra/postgres/wager_transaction_repository.go:139-163 | a row is inserted if and only if its identifier, key and external id are free, its wallet and resolved reference exist and its amount is not negative; a clash is told from a violation, and nothing but the new row changes |
| Store.Database.SaveTx | internal/infra/postgres/wager_transaction_repository.go:165-178 | passes if and only if the row is unknown or the resolved reference exists; then the five mutable columns of that row say what the transaction says and nothing else changes anywhere |
| Store.LookupsAreExact | internal/infra/postgres/wager_transaction_repository.go:125-137 | a lookup finds a row if and only if that row has the provider and the external id or key, none of them empty |
| Store.Database.ListPendingReferenceDue | internal/application/fakes_test.go:273-291 | lists due parked rows only, each once, and all of them when fewer than the limit |
| ProcessWager.ProcessWagerTransaction.Execute | internal/application/process_wager_transaction.go:81-117 | the use case, step by step over the database, computes `Engine.Execute`; any error or ineffective commit leaves every table as it was, and a commit that took effect unheard keeps its tables and is an error |
| ProcessWager.ProcessWagerTransaction.HandleInbox | internal/application/process_wager_transaction.go:119-146 | a new message is recorded, a completed one replayed, one with another payload refused |
| ProcessWager.ProcessWagerTransaction.ProcessIdempotently | internal/application/process_wager_transaction.go:156-222 | lookup, creation, recovery and dispatch by kind compute `Engine.Process` |
| ProcessWager.ProcessWagerTransaction.CreateOrRecover | internal/application/process_wager_transaction.go:178-222 | what follows the lookups, on whatever tables it meets: a clash at the insert is answered by the row that has the key, or stays an error; what the new row says is `Idempotency.CreatedRowTranscribes` |
| ProcessWager.ProcessWagerTransaction.ProcessReversal | internal/application/process_wager_transaction.go:282-340 | parks, refuses or reverses as `Engine.Dispatch` does on the same tables |
| ProcessWager.ProcessWagerTransaction.CommitMovement | internal/application/process_wager_transaction.go:371-395 | entry, wallet, transaction and both events are written together or the call fails |
| ResolvePending.ResolvePendingReferences.RunOnce | internal/application/resolve_pending_references.go:49-66 | lists due rows, all of them when fewer than the limit, attempts these snapshots in order, each committed or rolled back alone, and stops at the first error, a commit not heard of included; what its counts and its error mean is `Polling.PollReports` |
| ResolvePending.ResolvePendingReferences.Attempt | internal/application/resolve_pending_references.go:68-157 | the resolver's separate reversal code computes `Engine.Attempt`, in which the reversal is the one of the direct path |
| ResolvePending.ResolvePendingReferences.RescheduleOrExpire | internal/application/resolve_pending_references.go:159-166 | at the maximum age the row is rejected, before it attempt 1 and one base backoff are recorded |
| OpenWalletCase.OpenWallet.Execute | internal/application/open_wallet.go:40-86 | opening computes `Engine.Open`, of which `Decisions.OpeningSucceedsExactly` tells the whole effect; any error or ineffective commit leaves every table as it was, and a commit that took effect unheard keeps its tables and is an error |
| Runs.StepChanges | internal/infra/postgres/tx.go:28-47 | every step of every run, whatever fails in it, changes the tables in one of six ways or not at all |
| Runs.SoundPreserved | migrations/0002_wager_transactions.up.sql:45-51 | the unique indexes and the shape of every row survive each of the six changes |
| Runs.AlterationExtends | internal/infra/postgres/wager_transaction_repository.go:165-178 | rows are never deleted and their identity is never written again |
| Balances.LedgerExplainsBalance | internal/infra/postgres/ledger_repository.go:27-48 | after any run a balance is the signed sum of the wallet's entries, every prefix sum is a past balance in range, entries chain, and the version is one more than the number of movements |
| Balances.EventsReplayToWallet | internal/application/process_wager_transaction.go:472-489 | balance events match ledger entries one to one, and replaying them from an empty wallet gives the stored balance and version |
| Balances.ReconciliationAgrees | internal/application/reconciliation.go:29-65 | after any run reconciliation finds difference zero for every wallet with entries, and errs with the currency for one without |
| Balances.ReconcileDetects | internal/application/reconciliation.go:42-64 | on any tables, corrupt ones included, reconciliation computes exactly when there are entries, the last currency is the stored one, and sum and difference fit; then it reports the sum, the gap, and consistency if and only if there is none; otherwise the error tells what was missing |
| Balances.OneWalletPerCurrency | internal/application/open_wallet.go:40-86 | in no run does a player get two wallets in one currency |
| References.ReversalsCancelOnce | internal/application/process_wager_transaction.go:300-369 | in a serial run a processed refund or rollback resolved to the transaction it names, matches it in provider, player, wallet, round and money, nets to zero with it in the ledger, and no other reversal resolved to it |
| References.ReferenceChainsAreShort | internal/application/process_wager_transaction.go:349-369 | references climb from rollback to refund to bet and no further; a rollback is never reversed |
| References.SelfReferenceIsRejected | internal/application/process_wager_transaction.go:282-302 | a reversal that names itself is rejected as a mismatch instead of waiting for itself |
| References.BookedConsistent | internal/application/process_wager_transaction.go:371-395 | a movement keeps entries and money-moving transactions in one-to-one correspondence |
| Conservation.MoneyIsConserved | internal/application/process_wager_transaction.go:224-340 | after any serial run a balance is the opening amount plus live wins minus live bets |
| Conservation.MoveOfRevival | internal/application/process_wager_transaction.go:342-347 | rolling back a refund takes the refunded stake again and so brings the bet back to life |
| Conservation.LiveInPlainTerms | internal/application/process_wager_transaction.go:349-369 | a bet or win counts unless rolled back, or refunded by a refund that was not rolled back |
| Idempotency.LookupsAgree | migrations/0002_wager_transactions.up.sql:45-51 | key and external id each pick at most one row, the same one when both match, and every inbox record is complete and backed by a row with its payload |
| Idempotency.CreatedRowTranscribes | internal/application/process_wager_transaction.go:178-193 | creating adds one row, which says field by field what the command said and that it was created at the command's time; no other row changes |
| Idempotency.ReuseIsRefused | internal/application/process_wager_transaction.go:119-176 | reusing a key or an external id changes nothing, and is refused exactly when the message was not seen before or the key is unknown; the error tells an external id under another key from a reused key and from an unknown one |
| Idempotency.ExactlyOnce | internal/application/process_wager_transaction.go:156-206 | whatever follows a first success, its command has one row, which records what it asked for, and at most one entry, and any later arrival replays that row and changes at most the inbox |
| Idempotency.ReplayTellsTheSame | internal/application/process_wager_transaction.go:513-531 | a command that ended at once is replayed with the same status, code, transaction and minor units; any replay is the very same answer if and only if a command answered as waiting still waits and a loss names the currency its wallet had before the call |
| Scenarios.ReplayCanDiffer | internal/application/process_wager_transaction.go:263-280 | a loss in dollars on a wallet in reais is first answered with the balance in reais, then in dollars |
| Scenarios.ParkedReplayDiffers | internal/application/process_wager_transaction.go:513-531 | a refund first answered as waiting, without a balance, is replayed as processed with one |
| Idempotency.PayloadIdentifies | internal/application/process_wager_transaction.go:498-511 | two commands have the same payload if and only if they agree in everything but key, time and message |
| Idempotency.AnswersAreHonest | internal/application/process_wager_transaction.go:513-531 | every answer, first or replayed, gives the stored status, code and minor units of its transaction |
| Idempotency.UnfinishedIsProcessed | internal/application/process_wager_transaction.go:119-146 | on any tables a message that was received but never completed is processed as without the inbox, and then marked completed |
| Recovery.RecoveryAnswersAsNow | internal/application/process_wager_transaction.go:178-206 | whatever committed since the lookups, the insert with its recovery succeeds exactly when the whole call would succeed on the tables of now, with the same answer and tables; where the database does not answer after a failed statement a clash is an error; each error is given |
| StatusSafety.RowsAreSafe | internal/domain/wager/transaction.go:243-284 | committed rows are processed, rejected with a code, or parked; they have an entry exactly when they moved money; ended rows and identities never change |
| StatusSafety.StaleAttemptRespectsExactly | internal/application/resolve_pending_references.go:68-105 | a committed attempt on an outdated snapshot of an ended row leaves it alone if and only if its reference is missing and it is younger than the maximum age; otherwise the row ends anew |
| StatusSafety.StaleSnapshotRevives | internal/application/resolve_pending_references.go:90-157 | such an attempt on a rejected row whose reference has arrived processes it, clears its code and books an entry |
| StatusSafety.StaleSnapshotOverwrites | internal/application/resolve_pending_references.go:49-105 | an attempt on an outdated snapshot overwrites a processed reversal with a duplicate rejection and leaves its ledger entry |
| Scenarios.SecondResolverRevives | internal/application/resolve_pending_references.go:49-105 | a run, and two resolvers with one listing: the first rejects the row as not found, the bet arrives, the second processes it |
| Scenarios.SecondResolverOverwrites | internal/application/resolve_pending_references.go:49-105 | a run, and two resolvers with one listing: the first processes the row, the second marks it rejected and its entry stays |
| Announcements.OutboxTellsTheStory | internal/application/process_wager_transaction.go:410-470 | each transaction has exactly the status events of its history: at most one parked, then one final event; field by field these carry its identity, reference, code, amount, balance and time |
| Announcements.ResultingBalanceIsTrue | internal/application/process_wager_transaction.go:263-280 | the balance a transaction records is its wallet's balance right after the step that processed it, for good |
| Announcements.EventBalancesAreTrue | internal/application/process_wager_transaction.go:410-489 | every event a step publishes tells the balance, currency included, and the version that its wallet has right after that step |
| Dating.StepIsDated | internal/application/process_wager_transaction.go:410-489 | whatever a step changes bears the step's time: rows created or updated, entries, inbox records, and events, which are due at once |
| Agreement.ResolvingAgreesWithDeciding | internal/application/resolve_pending_references.go:68-157 | from any tables with the reference stored, attempting a parked reversal and deciding it at once give the same verdict, code, wallets, ledger, reference and events |
| Agreement.ReversalsAgree | internal/application/process_wager_transaction.go:282-340 | reversing a fresh row and a parked row on otherwise equal tables differ only in the row's age |
| Expiry.WaitingIsBounded | internal/application/resolve_pending_references.go:159-166 | in any run a parked row is put off at most ceil(maximum age / base backoff) times |
| Scenarios.WaitingBoundIsReached | internal/application/resolve_pending_references.go:159-166 | for every policy with a positive backoff a run attains that number, which exceeds any smaller retry budget |
| Expiry.BudgetIsIgnored | internal/application/resolve_pending_references.go:15-34 | remark to the bound above: since nothing reads the retry budget, every run is the same under any other |
| Expiry.NotFoundExactly | internal/application/resolve_pending_references.go:68-90 | an attempt ends a parked row as not found if and only if it is due, its reference is not stored and it has reached the maximum age |
| Expiry.ExpiryRejects | internal/application/resolve_pending_references.go:159-178 | the first attempt at the maximum age without a reference rejects and announces the reversal and moves no money |
| Expiry.NotGivenUpEarly | internal/application/resolve_pending_references.go:159-166 | while every attempt on a row is made before its command's own time plus the maximum age, the row is not rejected as not found, whatever else the run does |
| Expiry.ArrivalDecides | internal/application/resolve_pending_references.go:68-90 | once the reference is stored an attempt on a due row succeeds if and only if the wallet can take the movement the verdict calls for; then it ends the row, never as not found, and otherwise nothing changes |
| Scenarios.FoundIsNotEnough | internal/application/resolve_pending_references.go:49-157 | a run that fills a wallet to the largest balance while a refund waits: its bet is stored, yet every attempt at any time errs, the row stays parked, and a poll that lists it first gets no further |
| Expiry.SqlListsNothing | internal/infra/postgres/wager_transaction_repository.go:188-197 | in a run whose attempts all come from the SQL listing there are no attempts, and the query lists no row |
| Decisions.RulingIsExact | internal/application/process_wager_transaction.go:224-369 | each verdict and failure code is given if and only if a condition on the stored tables holds, stated without following the code |
| Decisions.CommandsSucceedExactly | internal/application/process_wager_transaction.go:156-222 | after any run a new command succeeds exactly when it is fully specified, its wallet exists and, if money is to move, currency, range and version allow it; and then the answer is the ruling; otherwise the error tells the first of these that fails |
| Decisions.SettleSucceedsExactly | internal/application/process_wager_transaction.go:371-395 | a movement fails only for a foreign currency, a credit out of range or a version that cannot rise |
| Decisions.OpeningSucceedsExactly | internal/application/open_wallet.go:40-86 | after any run opening fails only for a nil player or a negative balance, as an invalid wallet, or for a second wallet in the currency, as a conflict; otherwise it adds exactly the wallet that was ordered and, for a positive balance, one processed opening row in the player's name, its entry from zero and two events, all given field by field |
| Decisions.WinResolvesExactly | internal/application/process_wager_transaction.go:242-261 | a win records what is stored under its reference, and itself when it names itself |
| Polling.PollIsRun | internal/application/resolve_pending_references.go:49-66 | a poll is a stretch of a serial run: its effective attempts in listing order, the last of which may have gone unheard |
| Polling.PollReports | internal/application/resolve_pending_references.go:49-66 | of the first rows listed, as many have ended as a poll calls resolved and as many are still parked as it calls rescheduled; it reports no error if and only if these are all, and otherwise the one of the next attempt or of its commit |
| Interleaving.NoLostUpdate | internal/infra/postgres/wallet_repository.go:62-95 | in every interleaving of clients and resolvers, with wallet reads, checks of reversals and listings of parked rows as old as they like and used for any kind of command, each balance is its ledger sum, no prefix of which is negative, and the version counts the movements |
| Interleaving.MoveCommitsExactly | internal/infra/postgres/wallet_repository.go:82-95 | a bet or win computed from an earlier read moves money exactly when the read is still current and the serial machine would process it |
| Interleaving.SeenIsSerialExactly | internal/application/process_wager_transaction.go:224-280 | a bet, win or loss on an earlier read commits as it would serially if and only if, where it does not move money, what it tells of the balance or refuses for it is still true |
| Interleaving.InterleavingIsSerial | internal/application/process_wager_transaction.go:371-395 | an interleaving in which every commit finds its check and its read still good leaves the tables of a serial run in commit order, resolvers included |
| Interleaving.LookedAtOnce | internal/infra/postgres/wallet_repository.go:62-95 | splitting a use case loses nothing: in any interleaving a bet, win or loss committed right after its wallet was read is the serial step |
| Interleaving.VettedAtOnce | internal/application/process_wager_transaction.go:300-340 | the same for a reversal committed right after its check |
| Interleaving.ListedAtOnce | internal/application/resolve_pending_references.go:49-66 | the same for a row attempted right after it was listed |
| Interleaving.ClearedAtOnce | internal/application/resolve_pending_references.go:90-157 | the same for a row that is listed, checked and settled in a stretch |
| Interleaving.VettedIsSerialExactly | internal/application/process_wager_transaction.go:300-340 | a reversal checked earlier, on a wallet read now or earlier, commits as it would serially if and only if its target is still unreversed and a refusal for the balance is still true |
| Interleaving.ClearedIsSerialExactly | internal/application/resolve_pending_references.go:90-157 | the same for a resolver whose listing, check and wallet read are all old |
| Payback.VettedReversesOnceExactly | internal/application/process_wager_transaction.go:300-340 | the commit of a reversal checked at any earlier time, on a wallet row read now or earlier, keeps at most one entry per reference if and only if it did so far, and that row does not cover the amount or the reference has no reversing entry; by rows, if and only if the row does not cover it or nothing stored reverses the target |
| Payback.ClearedReversesOnceExactly | internal/application/resolve_pending_references.go:90-157 | the same for a resolver whose listing and check are old, rows that have ended meanwhile included: one that has moved money is not moved again |
| Payback.AttemptPaysBackOnceExactly | internal/application/resolve_pending_references.go:68-157 | a whole attempt on a row as it was listed, outdated or not, keeps at most one entry per reference if and only if it did so far, and what it finds does not let it move money or the reference has no reversing entry |
| Payback.SubmitPaysBackOnceExactly | internal/application/process_wager_transaction.go:156-340 | the same for a command as it arrives, in a message or not; one whose key is known pays nothing back |
| Payback.PaidBackOnceExactly | internal/application/process_wager_transaction.go:300-369 | in every interleaving the ledger has at most one entry per reversed reference if and only if each act that moved money for a reversal found no reversing entry of its reference |
| Payback.RefusesExactly | internal/domain/wallet/wallet.go:80-99 | a row does not cover exactly a positive debit in its currency of more than it holds |
| Payback.RunPaysBackOnce | internal/application/process_wager_transaction.go:300-369 | after every serial run no reference has two reversing entries |
| Payback.UnracedReversesOnce | internal/application/process_wager_transaction.go:300-340 | an interleaving in which every commit finds its check still good reverses nothing twice, by entries and by rows |
| Race.ReversalsCanRace | internal/application/process_wager_transaction.go:304-316 | a concrete interleaving of a refund and a rollback reverses one bet twice, by rows and by entries, and ends 100 above the opening balance |
| Race.OverwriteHidesReversal | internal/application/resolve_pending_references.go:49-105 | a concrete interleaving: a refund is parked and listed, its bet arrives, the refund is processed, a second resolver overwrites its row, and a rollback pays the stake back again; one row reverses the bet, two entries do, and the wallet ends 100 above its opening balance |
| Pagination.SplitOnce | internal/infra/postgres/ledger_repository.go:80-87 | the scan finds the two halves around the first separator, or the whole text |
| Pagination.CursorRoundTrip | internal/infra/postgres/ledger_repository.go:55-78 | with formats that parse what they print and timestamps without the separator, decoding inverts encoding and no cursor is empty |
| Pagination.DecodesExactly | internal/infra/postgres/ledger_repository.go:60-87 | a cursor is a position if and only if it decodes to a time and an identifier around its first separator |
| Formats.GoCodecIsLawful | internal/infra/postgres/ledger_repository.go:55-78 | the formats the repository uses are such formats, so every position with a four-digit year and a 128-bit identifier comes back from its cursor |
| Formats.TimeRoundTrip | internal/infra/postgres/ledger_repository.go:56-71 | an RFC 3339 timestamp with trimmed nanoseconds denotes the time it was printed from, through the calendar with its leap years |
| Formats.UUIDRoundTrip | internal/infra/postgres/ledger_repository.go:56-75 | a printed UUID parses to the 128 bits it was printed from |
| Formats.Base64RoundTrip | internal/infra/postgres/ledger_repository.go:57-62 | unpadded URL-safe base64 of any bytes decodes to them |
| Pagination.ListByWallet | internal/infra/postgres/ledger_repository.go:89-168 | limit default, cursor, row loop and the extra row compute `Page` |
| Pagination.PageFailsExactly | internal/infra/postgres/ledger_repository.go:89-125 | a page fails exactly for a cursor that does not decode, as malformed, or the largest int64 as limit |
| Pagination.PageStartsListing | internal/infra/postgres/ledger_repository.go:110-168 | a page, of 50 entries unless a positive limit is given, is the start of the sorted entries past its cursor, and has a next cursor exactly when they go on |
| Pagination.ReadingIsComplete | internal/infra/postgres/ledger_repository.go:89-168 | following the cursors with any limits, while the ledger grows, gives no entry twice, keeps the order, and misses none that was there at the start |
| Pagination.PagesAreListing | internal/infra/postgres/ledger_repository.go:89-168 | on a still ledger the concatenated pages are the wallet's entries sorted by creation and identifier |
| Pagination.PageCount | internal/infra/postgres/ledger_repository.go:89-168 | with one limit exactly max(1, ceil(entries / limit)) requests are needed |
| Browsing.PagingDuringARun | internal/infra/postgres/ledger_repository.go:89-168 | the same for a reader whose requests fall at any points of a run |
| Backoff.DoubledIsCapped | internal/infra/rabbitmq/outbox_worker.go:29-39 | repeated doubling of an int64 with an early stop is the capped power of two, without wrapping |
| Backoff.DoubledExactly | internal/infra/rabbitmq/outbox_worker.go:29-39 | for all int64 values the doubling loop gives the ceiling if some doubling, wrapped, reaches it, and the last doubling otherwise |
| Backoff.DelayClosedForm | internal/infra/rabbitmq/outbox_worker.go:29-39 | for all int64 values the first failure waits the base and the k-th the base doubled k-1 times, wrapped, or the maximum if a doubling reached it; below 2^62 ns that is min(base * 2^(k-1), maximum) |
| Backoff.NextAttemptDelay | internal/infra/rabbitmq/outbox_worker.go:29-39 | the loop computes that delay |
| Backoff.BackoffFor | internal/infra/rabbitmq/consumer.go:199-210 | the loop equals min(2s * 2^(k-1), 60s) for every attempt from 1, and 2s below |
| Backoff.NextBackoff | internal/application/resolve_pending_references.go:25-34 | the loop equals min(base * 2^attempts, 5min) for every base that is not negative, and for the others the wrapped doubling or five minutes |
| Outbox.OutboxWorker.RunOnce | internal/infra/rabbitmq/outbox_worker.go:81-103 | a poll handles the claimed records in order, each marked or rescheduled by what happened to it, and stops at the first failed statement |
| Delivery.ClaimIsExact | internal/infra/postgres/outbox_repository.go:42-88 | a claim holds due unpublished records, each once, by due time and then identifier, and leaves one out only when it is full of earlier ones |
| Delivery.PollIsTurns | internal/infra/rabbitmq/outbox_worker.go:81-103 | handling the claimed records one by one is the poll the worker's loop computes |
| Delivery.PollStopsAtFailure | internal/infra/rabbitmq/outbox_worker.go:81-103 | a poll attempts its records in order up to the first whose statement fails, and reports failure if and only if there is one |
| Delivery.NoEventIsLost | internal/infra/postgres/outbox_repository.go:90-106 | from any point of a run of use cases and single record handlings to any later one, every event is still there unchanged, and final once published |
| Delivery.EventsAreAccounted | internal/infra/rabbitmq/outbox_worker.go:81-103 | an event is published exactly when a confirmed publish was recorded, never twice, and its attempts are its recorded failures |
| Delivery.PublishedIsNotClaimed | internal/infra/postgres/outbox_repository.go:42-52 | with use cases committing between the records of a poll, a published event is not claimed again and not in the worker's hands |
| Delivery.PollDrains | internal/infra/rabbitmq/outbox_worker.go:81-103 | when its statements succeed, a poll that was not full publishes or puts off every due event, by base * 2^attempts up to the maximum, touches no other, and leaves none due |
| Delivery.BooksHoldWhileServing | internal/infra/rabbitmq/outbox_worker.go:81-103 | with record handlings between the steps every balance is still its ledger sum and its live worth |
| Consuming.Consumer.Handle | internal/infra/rabbitmq/consumer.go:65-125 | what is published and settled is the disposal of the verdict, and the tables change exactly if the commit took effect, heard of or not, a panic before or after it included; which verdict is given when is `Redelivery.VerdictsAreExact` |
| Consuming.Consumer.Retry | internal/infra/rabbitmq/consumer.go:127-161 | a retry is stamped, delayed and acked, requeued if its publish fails, and buried without budget; its number and its delay are those of `Redelivery.RetriesAreBounded` |
| Consuming.CopyHeaders | internal/infra/rabbitmq/consumer.go:136-139 | the copy loop reproduces the header table |
| Redelivery.VerdictsAreExact | internal/infra/rabbitmq/consumer.go:65-125 | for every message: acked as a success, retried, and each kind of dead letter, if and only if a condition on its identifier, its parsing, a panic, the error of the use case and the commit holds |
| Redelivery.ReuseIsBuried | internal/infra/rabbitmq/consumer.go:108-117 | after any run a message that reuses a key or an external id, and was not seen, is a dead letter at its first handling and changes no table |
| Redelivery.NewMessageIsTried | internal/infra/rabbitmq/consumer.go:108-121 | after any run a new command in a new message succeeds exactly when the tables allow it and is retried otherwise, never buried at once |
| Redelivery.RetriesAreBounded | internal/infra/rabbitmq/consumer.go:127-197 | a message arriving with count c is handled at most maxRetries - c + 1 times plus one per retry publish that failed; all handlings but the last were transient, and the last one ends as the count, the verdict and its publish say: a retry carries the next number and waits min(2s * 2^count, 60s), a dead letter carries its reason and routing key |
| Redelivery.SettledOnce | internal/infra/rabbitmq/consumer.go:65-181 | remark to the bound above: every handling settles its delivery exactly once, last, after at most one publish |
| Redelivery.LostExactly | internal/infra/rabbitmq/consumer.go:163-181 | remark to the bound above: a message is lost exactly when it is a dead letter whose publish fails |
| Redelivery.BeyondBudget | internal/infra/rabbitmq/consumer.go:127-135 | remark to the bound above: a message that arrives with more failures than the budget is never retried; if it fails again it is a dead letter |
| Redelivery.LargestCountStartsOver | internal/infra/rabbitmq/consumer.go:127-141 | remark, the exception to it: the largest count wraps, so that message is retried under any budget, from 0 |
| Redelivery.RedeliveryIsHarmless | internal/application/process_wager_transaction.go:119-154 | a message committed but not acked is acked on redelivery, reports the same transaction and changes no table |
| Redelivery.UnheardCommitIsHarmless | internal/infra/postgres/tx.go:42-45 | a message whose commit took effect but was reported as failed is treated as transient, and when it comes back it is acked and changes no table |
| Redelivery.PanicKeepsCommit | internal/infra/rabbitmq/consumer.go:65-90 | remark: a panic after an effective commit buries the message and keeps what was committed |
| Redelivery.SeenMessageAnswersForAnotherKey | internal/application/process_wager_transaction.go:131-154 | a seen message under another transaction's key is answered with that transaction |
| Scenarios.MessageAnsweredForAnotherBet | internal/application/process_wager_transaction.go:131-154 | a run with two bets: the message of the first, resent under the key of the second, is answered with the second |

## Left out

- Listing or claiming queries that fail: nothing was read, and nothing happens.
- HTTP handlers, routing, JSON, authentication, configuration, dependency wiring and the AMQP topology: plumbing around
  the engine.
- SHA-256 and JSON canonicalisation: the payload stands for its own hash.
- Cursor spellings that Go reads but never prints: timestamps with an offset, a comma or more than nine decimals, UUIDs
  with braces, a prefix or no dashes, base64 with line breaks.
- Correlation identifiers, log output and the error texts appended to dead-letter reasons.
- `MarkFailed`, `FindByPlayerAndCurrency`, the query service and plain getters: not used by the engine.
- Identifiers are a rising supply that a rollback rewinds, because no table shows the identifiers of a rolled-back step.
- Times are integers. Nothing assumes that commit order agrees with creation time, and stored times are not rounded to
  microseconds.
- Several outbox workers at once: their row locks end with the claim, so they may publish an event more than once.
- Store.Database.ListPendingReferenceDue: does not state the order of the SQL listing, because the in-memory rule has none.
- Expiry.WaitingIsBounded: assumes that no attempt on a row is made at a time before the row was created.
- Redelivery.RetriesAreBounded: assumes that counts fit in an int32.
