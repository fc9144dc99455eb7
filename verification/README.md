# The NemPay money core, modelled and proved in Dafny

NemPay is a payment gateway written in Go; Nem Luxury is a Rails shop that sells through it. This
project models the part of the two that moves money: payment intents and their life cycle in direct and
escrow mode, the double-entry ledger under them, escrow reconciliation, the idempotency protocol around
every money call, the transactional outbox and its delivery, and the shop's webhook consumer. It proves
what the design rests on. No balance is stored anywhere, so the central theorem is that every balance
summed over the append-only entry log equals a closed form over the intents table, in every state that
any interleaving of any number of calls can reach.

`dafny verify dfyconfig.toml` checks everything.

## How the model is built

| file | part of the system |
|---|---|
| `StateMachine.dfy` | the mode-keyed graph of intent statuses |
| `Tables.dfy`, `Posting.dfy` | the rows, and what the ledger's wrapping balance check accepts |
| `Money.dfy`, `Promises.dfy` | what each money call decides once it holds its row, and the serial step that follows; what it promises its caller |
| `Lifecycle.dfy`, `Causes.dfy` | the invariant of all serial runs: histories, ledger shapes, balanced postings; the call behind each event and posting |
| `ClosedForm.dfy`, `Reports.dfy` | balances as a closed form; trial balance, solvency, reconciliation |
| `Numeric.dfy` | narrowing a numeric to int64 |
| `Store.dfy`, `Service.dfy` | the database handle and the money service as classes and methods, proved to do exactly one serial step or nothing |
| `Concurrency.dfy`, `Replay.dfy` | any number of those transactions interleaved statement by statement; what a log of commits fixes |
| `Rerun.dfy`, `Idempotency.dfy` | why running a call again is harmless; claims, completions, releases, sweeps |
| `Delivery.dfy` | leases, retries, backoff, dead letters |
| `Merchant.dfy`, `EndToEnd.dfy` | the webhook consumer, and both services together |
| `Grouping.dfy`, `Luhn.dfy` | the portal's grouping loop; the card checksum |
| `Runs.dfy`, `Arithmetic.dfy`, `Wrappers.dfy` | runs of a step relation and induction over them; quotients and remainders; option and result |

The same calls appear three times, and the three are tied together. `Money.Step` is one committed call
alone, as a relation between tables. The methods of `Service` are the Go functions in their imperative
form, statement for statement, over a database object of which any query may fail; each is proved to
take one `Step` or to leave the committed tables alone, and to blame the database only when a query
failed. `Concurrency.Next` splits a call into its statements under row locks and unique indexes, and
`CommitsAreSerializable` brings every interleaving back to a run of `Step`s. All that is proved of runs
of `Step`s therefore holds of the concurrent system.

Inputs from outside are arbitrary: the bank answers approved, declined or nothing; each query comes
back or fails; time is whatever the caller says; handlers return any status and body, panic or crash;
webhooks repeat, reorder, overlap and get lost.

## Where the code and its comments part

The model follows the code.

- `Confirm` persists `created` to `authorized` in one write. That is two edges of the graph, not one
  (`Lifecycle.PersistedChangesAreWalks`).
- `EscrowSegregationHolds` sums all escrow liabilities, so it answers false while any escrow intent of
  that merchant and currency is captured and not yet settled: exactly then, when both sums are of one state
  (`Reports.SegregationHoldsIff`). It takes them in two queries, and calls may commit in between: then it
  says ok exactly when what left escrow in between makes up for what is outstanding
  (`Concurrency.SegregationBetween`).
- The expiry sweep re-checks only for an edge to `failed`, which `authorized` has: an intent authorized
  between the listing and the lock is failed (`Rerun.ExpiryReaches`, `Service.ExpireStaleIntents`).
- `SettleDueIntents` counts listed rows that another worker had settled: its count is the number of intents
  it settled exactly when each listed row was captured and is listed once (`Service.SettleDueIntents`). Two
  listings where they differ are `Service.CountedThoughSettled`.
- `PostTransaction` compares sums modulo 2^64, so it accepts some unbalanced lists
  (`Posting.AcceptsAnUnbalancedList`). While the true sums are less than 2^64 apart it is exact, and the sums
  of every list the service builds are equal.
- `numericToInt64` negates the exponent in int32, which does nothing to -2^31. A numeric that denotes an integer
  is never answered with a wrong number, but at that exponent every int64 other than zero is refused
  (`Numeric.NarrowedIff`). Only a fraction can come out as a wrong number there (`Numeric.FractionsAreCutIff`,
  `Numeric.SmallestExponentFails`). No query of the gateway returns that exponent.
- `backoff` returns the base itself at the first attempt, uncapped: the waits grow with the attempts exactly
  for a base within the cap (`Delivery.BackoffIsMonotone`).
- The outbox marks filter by id alone, so overlapping deliveries of one row can revive a dead row, kill a
  delivered one and count past the last attempt (`Delivery.OverlapRevives`). Which deliveries a row can take
  without that is `Delivery.OverlapAbsorbedIff`; whole runs of overlapping deliveries are
  `Delivery.OverlapIsToldIff`.
- The webhook handler reads the order before its transaction. A cancellation in between is overwritten with
  `paid`, and an intent id attached in between is missed (`Merchant.StaleReadHarmlessIff`,
  `Merchant.AttachedTooLate`). The first committed handler of a captured event decides: it pays the order it
  found when it arrived, if that was pending and of equal amount and currency (`EndToEnd.FirstCommitPaysIff`),
  and no other order of the intent is ever paid (`EndToEnd.UnpaidAtRecordStaysUnpaid`,
  `EndToEnd.LateIntentIdIsLost`).

## Model

| member | source | states |
|---|---|---|
| StateMachine.WalkClimbs | nem_pay/api/internal/statemachine/intent.go:41-68 | along any walk of edges in either mode the rank rises by at least one per edge |
| StateMachine.EdgesAreAsDrawn | nem_pay/api/internal/statemachine/intent.go:32-36 | an edge is legal exactly if it is on the drawn graph of its mode |
| StateMachine.WalksAreShort | nem_pay/api/internal/statemachine/intent.go:41-58 | no walk visits a status twice or takes more than five edges |
| StateMachine.ModesNeverCross | nem_pay/api/internal/statemachine/intent.go:27-58 | from created, a direct intent never reaches an escrow status nor the other way round; exactly the terminal statuses have no edge out |
| Posting.AcceptsModulo | nem_pay/api/internal/ledger/post.go:38-59 | the posting check accepts a list if and only if it is non-empty, one-sided, of one currency, and balances modulo 2^64 |
| Posting.VerdictIsDeserved | nem_pay/api/internal/ledger/post.go:39-59 | which error a list gets: empty, else that of its first bad entry (sides before currency), else unbalanced exactly if it does not balance modulo 2^64 |
| Posting.FirstFaultNames | nem_pay/api/internal/ledger/post.go:45-53 | the first bad entry in list order names the error |
| Posting.AcceptsIffBalanced | nem_pay/api/internal/ledger/post.go:43-59 | with the true sums less than 2^64 apart, a well-formed list is accepted if and only if it truly balances |
| Posting.SmallSumsAreClose | nem_pay/api/internal/ledger/post.go:43-59 | in particular when both true sums are below 2^64 |
| Posting.AcceptsAnUnbalancedList | nem_pay/api/internal/ledger/post.go:44-59 | the bound is needed: a concrete list with debits only is accepted |
| Posting.WrapAdds | nem_pay/api/internal/ledger/post.go:54-55 | accumulating in int64 gives the wrapped true sum |
| Money.EventTypesAreDistinct | nem_pay/api/internal/service/money.go:20-42 | two statuses have one event type if and only if they are the same status |
| Money.EventTypesTellStatus | nem_pay/api/internal/service/money.go:20-42 | the status reads off the event type: after the prefix payment_intent., or escrow.released for released |
| Money.StatusesReadBack | nem_pay/api/db/migrations/0006_escrow.up.sql:8-9 | a status is written as the text that stands for it and no other text is |
| Money.WritesClimb | nem_pay/api/internal/statemachine/intent.go:41-58 | whatever a call writes, the status climbs |
| Tables.KindsAreClassed | nem_pay/api/internal/service/money.go:168-178 | the accounting class of each account kind |
| Promises.ConfirmIsKept | nem_pay/api/internal/service/money.go:99-137 | the decision of a confirmation is the promised answer: authorized if the bank approves, failed if it declines, unavailable if it does not answer, invalid from any other status, not found for any other merchant |
| Promises.CaptureIsKept | nem_pay/api/internal/service/money.go:152-166 | of a capture: captured exactly from authorized with the bank's approval; declined, unavailable, invalid or not found otherwise |
| Promises.RefundIsKept | nem_pay/api/internal/service/money.go:207-275 | of a refund: granted exactly if refundable, and else the error whose condition holds |
| Promises.RefundGrantedIff | nem_pay/api/internal/service/money.go:226-275 | unless the database fails, a refund succeeds if and only if the intent is direct and captured with the full amount, direct and settled with a positive amount up to it, or escrow and held with the full amount |
| Promises.OneFaultFits | nem_pay/api/internal/service/money.go:226-275 | a positive refund that is not granted has exactly one error |
| Promises.ReleaseIsKept | nem_pay/api/internal/service/money.go:329-333 | of a release: granted exactly to a held escrow intent with a payee |
| Promises.CodesAreKept | nem_pay/api/internal/service/payment_intent.go:99-118 | a code is accepted exactly if it is three ASCII letters, and kept as their upper case |
| Promises.CreateIsKept | nem_pay/api/internal/service/payment_intent.go:59-97 | the row carries the amount, code, mode, payee and fee that were asked for; each other input gets its error |
| Lifecycle.PersistedChangesAreWalks | nem_pay/api/internal/service/money.go:99-127 | every persisted change is an edge of the mode's graph or confirm's two-edge path, and climbs |
| Lifecycle.AllHistories | nem_pay/api/internal/service/money.go:82-508 | of any sequence of persisted changes: its last status fixes what it can be, at most four changes, nothing after a terminal status, a partial refund only after settlement |
| Lifecycle.AllLedgers | nem_pay/api/internal/service/money.go:183-455 | of any sequence of persisted changes: the postings it dictates are, by mode and last status, [], [capture], [capture, settle], [capture, refund] (direct), [capture, settle, refund] or [capture, settle, release] (escrow) |
| Lifecycle.PostingNeverRejects | nem_pay/api/internal/ledger/post.go:38-59 | the entries of any sound plan pass every check of PostTransaction and truly balance |
| Lifecycle.PlansAreSound | nem_pay/api/internal/service/money.go:143-463 | every plan of a reachable call is a legal status change with non-empty, one-sided, balanced legs of the intent's merchant and currency, of at most twice its amount, refunding all or, partially, less |
| Lifecycle.RunAppends | nem_pay/api/internal/service/money.go:127-133 | one call adds exactly its status to its intent's announced history, exactly its transaction to that intent's ledger, and nothing to any other intent's |
| Lifecycle.StepKeepsInv | nem_pay/api/internal/service/money.go:82-508 | every committed call keeps the invariant: outbox rows are the history of persisted changes, ledger transactions those of that history, every transaction balances on accounts of its own merchant and currency, account keys and event ids are unique |
| Lifecycle.RunsKeepInv | nem_pay/api/internal/service/money.go:82-508 | that invariant holds after every serial run from the empty database |
| Lifecycle.RunsKeepShapes | nem_pay/api/internal/service/money.go:82-508 | after every serial run, each intent's outbox rows and ledger transactions are of those shapes for its mode and status |
| Causes.EventsHaveCauses | nem_pay/api/internal/service/money.go:99-137 | in every run, each event comes from the one logged call that was committed at its place in the outbox: authorized from an approved confirmation, failed from a declined one or an expiry, captured from an approved capture, settled and held from a settle, released from a release, refunded from a refund of the full amount, partially refunded from one of less |
| Causes.TxnsHaveCauses | nem_pay/api/internal/service/money.go:160-188 | in every run, each ledger transaction comes from the logged call that entitles to it: a capture only from a capture the bank approved, a refund from a refund of the amount it debits |
| ClosedForm.PlanMovesStanding | nem_pay/api/internal/service/money.go:183-455 | each call's posting moves its intent's money from where the old status puts it to where the new one does, on every selection of accounts |
| ClosedForm.ReleaseSums | nem_pay/api/internal/service/money.go:335-378 | a release without its zero legs sums as the one with them, for every fee from nothing to all |
| ClosedForm.WriteMovesBalance | nem_pay/api/internal/service/money.go:183-190 | committing a call changes each derived balance by exactly its legs; new account rows disturb no old sum |
| ClosedForm.WriteMovesTally | nem_pay/api/internal/service/money.go:183-190 | it changes any measure summed over the intents table by the change of its own intent's |
| ClosedForm.StepKeepsClosedForm | nem_pay/api/internal/service/money.go:143-463 | every committed operation keeps each balance equal to the closed form |
| ClosedForm.LedgerIsClosedForm | nem_pay/api/internal/service/money.go:143-463 | in every state of every run and for every selection of accounts, the balance summed over the entry log equals the closed form over the intents |
| Reports.RunsKeepBooks | nem_pay/api/internal/service/money.go:143-463 | the invariant and the closed form for all selections at once, after every run |
| Reports.FurtherRunsKeepBooks | nem_pay/api/internal/service/money.go:397-411 | books in order stay so over any further run of committed calls, such as a sweep's |
| Reports.KindBalances | nem_pay/api/internal/repository/db/accounts.sql.go:190-195 | a merchant's balance of each kind and currency is the stated sum over its intents: receivable of captured, segregated cash of held, platform cash of settled, released and remainders, payable, liabilities, revenue |
| Reports.ReportIsClosedForm | nem_pay/api/internal/repository/db/accounts.sql.go:15-34 | the balance report, cast to bigint, fails exactly when one of those sums is no int64; else each line is that sum, and a kind without a line has sum zero |
| Reports.EscrowLiabilityOf | nem_pay/api/internal/service/money.go:174-186 | an intent's escrow liability is minus its amount exactly while it is captured or held in escrow mode, else zero |
| Reports.PayableTo | nem_pay/api/internal/service/money.go:362-368 | a payee is owed the sum of amount less fee over the intents released to it |
| Reports.TrialBalance | nem_pay/api/internal/repository/db/accounts.sql.go:15-23 | a merchant's balance report sums to zero in each currency |
| Reports.Solvent | nem_pay/api/internal/repository/db/accounts.sql.go:59-73 | any group of asset accounts is never negative, of liability and revenue accounts never positive |
| Reports.AccountBalance | nem_pay/api/internal/repository/db/accounts.sql.go:59-63 | with unique keys, the balance by account id is the balance by key |
| Reports.BalanceOf | nem_pay/api/internal/ledger/post.go:83-93 | Balance answers the closed form of the account's key, zero for an unknown account, or an error exactly when the query fails or the sum, as it is spelled, cannot be read as an int64; never a wrong number |
| Reports.SegregationGap | nem_pay/api/internal/ledger/reconcile.go:23-39 | segregated cash plus escrow liabilities is minus the amount of the escrow intents between capture and settlement |
| Reports.SegregationHoldsIff | nem_pay/api/internal/ledger/reconcile.go:13-39 | of two sums of one state: the check, when it answers, says ok exactly when nothing is in that transit, however the sums are spelled; its int64 addition never wraps to a false zero; it answers exactly when both sums can be read |
| Reports.SegregationAcross | nem_pay/api/internal/ledger/reconcile.go:29-39 | of sums of two states: segregated plus liability is what left escrow in between less what is outstanding, and it says ok exactly when the two are equal |
| Concurrency.SegregationBetween | nem_pay/api/internal/ledger/reconcile.go:29-39 | the same for any two moments of any interleaved execution |
| Numeric.ArrivesIff | nem_pay/api/internal/ledger/post.go:102-109 | before the range check, the code arrives at the integer a numeric denotes if and only if its exponent is not -2^31 or the integer is zero |
| Numeric.ArrivesAtCutIff | nem_pay/api/internal/ledger/post.go:102-109 | for any numeric, it arrives at the number without its fraction if and only if the exponent is not -2^31 or the number is zero |
| Numeric.NarrowedIff | nem_pay/api/internal/ledger/post.go:95-114 | a numeric that denotes an integer is answered with that integer or an error, at every exponent; the answer is the right one of the two if and only if the exponent is not -2^31, or the integer is zero or no int64 |
| Numeric.FractionsAreCutIff | nem_pay/api/internal/ledger/post.go:102-113 | a numeric is answered with what is left when its fraction is cut off, or refused if that is no int64, if and only if the exponent is not -2^31, or it is zero, or what is left is no int64 |
| Numeric.NumericToInt64 | nem_pay/api/internal/ledger/post.go:95-114 | the method gives that answer for every numeric, integer or fraction; zero for a missing sum, an error for NaN |
| Numeric.SmallestExponentFails | nem_pay/api/internal/ledger/post.go:107-113 | at the exponent -2^31 the integer one is refused, and a fraction comes out as five |
| Numeric.SpellingsAgree | nem_pay/api/internal/ledger/post.go:102-113 | two spellings of one integer never narrow to two numbers, and narrow alike unless it is an int64 other than zero and just one of them has the exponent -2^31 |
| Rerun.CommitsAtMostOnce | nem_pay/api/internal/service/money.go:156-158 | once a call has committed on an intent, no later call of that kind on it ever writes, whatever happened in between |
| Rerun.OneOfEach | nem_pay/api/internal/service/money.go:219-275 | an intent has at most one capture and one settlement, and at most one of refund and release |
| Rerun.ExpiryReaches | nem_pay/api/internal/service/money.go:485-508 | under the lock the expiry sweep fails an intent if and only if it is created or authorized, and skips it otherwise |
| Store.Database.LockIntentForUpdate | nem_pay/api/internal/repository/db/payment_intents.sql.go:240-270 | the row, if it is the merchant's; not found exactly otherwise (that no other transaction holds or changes it is `Concurrency.DecisionStaysCurrent`) |
| Store.Database.UpdateIntentStatus | nem_pay/api/internal/repository/db/payment_intents.sql.go:273-303 | changes status and time of that row only |
| Store.Database.CreateIntent | nem_pay/api/internal/repository/db/payment_intents.sql.go:15-57 | appends one committed row |
| Store.Database.Upsert | nem_pay/api/internal/repository/db/accounts.sql.go:75-139 | answers the account that has the key, or a new one of the given type where none has; no other account changes and keys stay unique |
| Store.Database.GetOrCreateSingletonAccount | nem_pay/api/internal/repository/db/accounts.sql.go:114-153 | the same for a key without reference |
| Store.Database.GetOrCreatePerRefAccount | nem_pay/api/internal/repository/db/accounts.sql.go:75-112 | the same for a key with reference |
| Store.Database.InsertTransaction | nem_pay/api/internal/repository/db/ledger.sql.go:52-77 | appends one transaction without entries |
| Store.Database.InsertEntry | nem_pay/api/internal/repository/db/ledger.sql.go:15-50 | appends one entry to one transaction, touching no other |
| Store.Database.InsertOutbox | nem_pay/api/internal/repository/db/outbox.sql.go:115-150 | appends one event under an id no event has |
| Store.Validate | nem_pay/api/internal/ledger/post.go:39-59 | the loop finds the first fault in list order, or compares the wrapped sums |
| Store.PostTransaction | nem_pay/api/internal/ledger/post.go:38-81 | a refused list writes nothing; an accepted one is written whole, entries in order |
| Service.Emit | nem_pay/api/internal/service/money.go:44-60 | one outbox row in the caller's transaction that tells the intent's new state |
| Service.Advance | nem_pay/api/internal/service/money.go:127-137 | status, event and commit together: one serial step, or nothing |
| Service.AccountFor | nem_pay/api/internal/service/money.go:519-534 | the account of a key, of the class its kind demands |
| Service.ConfirmTx | nem_pay/api/internal/service/money.go:82-138 | one serial confirm step, or the committed tables unchanged; the answer is the one promised from row, input and bank, unless a query failed |
| Service.CaptureTx | nem_pay/api/internal/service/money.go:143-201 | one serial capture step, or the committed tables unchanged; the answer is the one promised from row, input and bank, unless a query failed |
| Service.RefundTx | nem_pay/api/internal/service/money.go:207-308 | one serial refund step, or the committed tables unchanged; the answer is the one promised from row, input and bank, unless a query failed |
| Service.ReleaseEntries | nem_pay/api/internal/service/money.go:335-375 | the three to five entries of a release, each on the account of its leg |
| Service.ReleaseTx | nem_pay/api/internal/service/money.go:316-391 | one serial release step, or the committed tables unchanged; the answer is the one promised from row, input and bank, unless a query failed |
| Service.SettleTx | nem_pay/api/internal/service/money.go:413-463 | one serial settle step; nothing to do unless still captured; or unchanged and why |
| Service.ExpireTx | nem_pay/api/internal/service/money.go:485-508 | one serial expire step; nothing to do without an edge to failed; or unchanged and why |
| Service.ConfirmIntent | nem_pay/api/internal/service/money.go:82-138 | the same with the deferred rollback: no private write survives the call; approved gives an authorized row, declined a failed one, no answer BankUnavailable, another status InvalidState |
| Service.CaptureIntent | nem_pay/api/internal/service/money.go:143-201 | the same with the deferred rollback: no private write survives the call; an authorized row is captured exactly if the bank approves; BankDeclined, BankUnavailable or InvalidState otherwise |
| Service.RefundIntent | nem_pay/api/internal/service/money.go:207-308 | the same with the deferred rollback: no private write survives the call; granted exactly if refundable, else the one error that fits |
| Service.ReleaseIntent | nem_pay/api/internal/service/money.go:316-391 | the same with the deferred rollback: no private write survives the call; granted exactly to a held escrow intent with a payee |
| Service.SettleOne | nem_pay/api/internal/service/money.go:413-463 | the same with the deferred rollback; a captured intent becomes settled, or held in escrow mode, any other is left as it is |
| Service.ExpireOne | nem_pay/api/internal/service/money.go:485-508 | the same with the deferred rollback; an uncaptured intent fails, any other is left as it is |
| Service.SettleDueIntents | nem_pay/api/internal/service/money.go:397-411 | for any listing, stale or not: exactly the rows it got to are settled if still captured, no other row changes; all it commits, postings and events included, is a run of settle steps on listed rows; the count it returns is the number of those steps exactly if each row was captured and is listed once; it stops early only at a failed query or a refusal |
| Service.ExpireStaleIntents | nem_pay/api/internal/service/money.go:469-483 | for any listing: exactly the rows it got to fail unless captured, authorized ones included; all it commits is a run of expire steps on listed rows; the count is their number exactly if each row was uncaptured and is listed once |
| Service.CountedThoughSettled | nem_pay/api/internal/service/money.go:403-409 | two listings of which the settle sweep settles one intent less than it counts |
| Service.NormalizeCurrency | nem_pay/api/internal/service/payment_intent.go:99-118 | in place: accepted exactly for three ASCII letters, answered as their upper case |
| Service.CreatePaymentIntent | nem_pay/api/internal/service/payment_intent.go:59-97 | appends the one row that carries what was asked for, or changes nothing and answers the error of the first check that fails |
| Concurrency.OthersUndisturbed | nem_pay/api/internal/repository/db/payment_intents.sql.go:240-270 | a step that commits nothing disturbs nothing another open transaction relies on |
| Concurrency.CommitIsSerial | nem_pay/api/internal/service/money.go:190-200 | a commit out of any interleaving is one serial step of its call on the committed tables |
| Concurrency.OthersSurviveCommit | nem_pay/api/internal/repository/db/accounts.sql.go:129-136 | nor does another's commit: its locked row, its bound accounts and its ids stay valid |
| Concurrency.CommitsAreSerializable | nem_pay/api/internal/service/money.go:82-508 | every interleaving commits the tables of running the committed calls one at a time in commit order |
| Replay.LogFixesTables | nem_pay/api/internal/service/money.go:82-508 | two serial runs of one log have the same intents, the same postings by account key, the same events and accounts of the same keys, up to the ids of accounts and events |
| Replay.BalancesAlike | nem_pay/api/internal/repository/db/accounts.sql.go:59-63 | and the same balances |
| Concurrency.SameLogSameBooks | nem_pay/api/internal/service/money.go:82-508 | so any two interleavings that commit the same operations in the same order agree on all of that |
| Concurrency.BooksAlways | nem_pay/api/internal/service/money.go:82-508 | hence invariant and closed form hold in every state any interleaving reaches |
| Concurrency.ShapesAlways | nem_pay/api/internal/service/money.go:82-508 | in every state any interleaving reaches, each intent's outbox rows and ledger transactions have the shapes its mode and status dictate: [], [capture], [capture, settle], [capture, refund], [capture, settle, refund] or [capture, settle, release] |
| Concurrency.EventsAlwaysCaused | nem_pay/api/internal/service/money.go:99-137 | the same for events in every state any interleaving reaches |
| Concurrency.TxnsAlwaysCaused | nem_pay/api/internal/service/money.go:160-188 | the same for ledger transactions |
| Concurrency.DecisionStaysCurrent | nem_pay/api/internal/service/money.go:510-517 | until a transaction ends, its decision is the one its call alone would take on the tables as they are now |
| Concurrency.RefusalsAreCurrent | nem_pay/api/internal/service/money.go:156-166 | a call that commits nothing changes nothing, and its answer, the error itself, is the one it would get run alone on the tables as they are |
| Concurrency.PostingIsEnabled | nem_pay/api/internal/service/money.go:183-188 | with its accounts bound, a transaction can always post: no ledger error surfaces from a reachable call |
| Idempotency.FingerprintIsInjective | nem_pay/api/internal/service/idempotency.go:21-29 | for NUL-free method and URI and any body bytes, what is hashed is the same if and only if the request is |
| Idempotency.KeyTable.InsertInFlight | nem_pay/api/internal/repository/db/idempotency.sql.go:69-99 | claims under a new id with the request's fingerprint and the present time, refused exactly when merchant and key are claimed |
| Idempotency.KeyTable.MarkCompleted | nem_pay/api/internal/repository/db/idempotency.sql.go:102-120 | completes the row of that id, if it is still there |
| Idempotency.KeyTable.DeleteKey | nem_pay/api/internal/repository/db/idempotency.sql.go:15-25 | removes the row of that id and no other |
| Idempotency.KeyTable.GetByKey | nem_pay/api/internal/repository/db/idempotency.sql.go:40-66 | a row of that merchant and key, if there is one |
| Idempotency.KeyTable.SweepOrphanedKeys | nem_pay/api/internal/service/idempotency.go:31-39 | removes exactly the claims in flight since before the cutoff |
| Idempotency.KeyTable.ExpireCompletedKeys | nem_pay/api/internal/service/idempotency.go:41-47 | removes exactly the completed rows created before the cutoff |
| Idempotency.WithIdempotency | nem_pay/api/internal/httpapi/idempotency.go:49-177 | one request alone, whichever of the wrapper's queries fail: a first claim keeps exactly its handler's final response; a second never runs it and gets 422 if it differs, 409 if the first is in flight, and the stored response if that is completed |
| Idempotency.CompletedRowsAreTheirOwn | nem_pay/api/internal/httpapi/idempotency.go:85-136 | under any interleaving with panics, crashes and sweeps, a completed row holds the final response (below 500) of the very request that inserted it |
| Idempotency.LateWritesSpareOthers | nem_pay/api/internal/httpapi/idempotency.go:102-136 | a late completion or release of a claim that was swept and recreated leaves every other request's row as it is |
| Idempotency.RepliesAreHonest | nem_pay/api/internal/httpapi/idempotency.go:139-177 | every replay repeats a final response given to the same merchant, key and fingerprint; any other response is that of the request's own run; and each replay, 422 and 409 is what the row under the key told at the lookup: 409 exactly if it was in flight then, a replay if it was completed |
| Idempotency.LookupTells | nem_pay/api/internal/httpapi/idempotency.go:139-177 | in any execution, a lookup that finds the key's row answers 422 exactly if the fingerprints differ, 409 exactly if it is the same and in flight, and else the stored response |
| Idempotency.RetriesAreReplayed | nem_pay/api/internal/httpapi/idempotency.go:162-176 | a retry that finds a completed row gets the very response of the request that inserted it |
| Idempotency.AnswersAreKept | nem_pay/api/internal/httpapi/idempotency.go:123-135 | a handler's final answer is stored in its claim if that is still there, any other removes it, and no other row changes |
| Idempotency.SweepsAreThorough | nem_pay/api/internal/repository/db/idempotency.sql.go:27-29 | the sweeps take every row that is due and no other |
| Idempotency.StartsAreSeparated | nem_pay/api/internal/httpapi/idempotency.go:108-129 | between two handler starts for one merchant and key the earlier claim was deleted: after a 5xx, after a panic, still in flight and locked before an orphan cutoff, or completed and created before an expiry cutoff |
| Idempotency.KeyReusedIff | nem_pay/api/internal/httpapi/idempotency.go:148-153 | the answer is 422 exactly when the request that holds the key differs in method, URI or body |
| Idempotency.NextKeepsSafe | nem_pay/api/internal/httpapi/idempotency.go:85-136 | every step of every request, sweep or crash keeps the protocol's invariant |
| Delivery.Backoff | nem_pay/api/internal/webhook/deliver.go:167-178 | the loop gives the base at the first attempt and min(base * 2^(attempt-1), 5 min) at every later one, without int64 overflow for any base below 2^62 |
| Delivery.BackoffIsMonotone | nem_pay/api/internal/webhook/deliver.go:167-178 | what is waited never falls from one attempt to a later one if and only if the base is at most five minutes; nobody waits more than that from the second attempt on |
| Delivery.WaitsDouble | nem_pay/api/internal/webhook/deliver.go:167-178 | the first wait is the base, each later one twice the one before, until the cap |
| Delivery.NextKeepsBox | nem_pay/api/internal/webhook/deliver.go:97-141 | every claim, delivery or crash keeps the account a row and its log give of each other |
| Delivery.DeliveriesAnswer | nem_pay/api/internal/webhook/deliver.go:97-141 | how a delivery ends for each answer: delivered by a 2xx or for want of an endpoint, dead at the sixth failure, else pending until its backoff is over, and what is logged |
| Delivery.RowsAreTold | nem_pay/api/internal/webhook/deliver.go:52-141 | after any sequence of non-overlapping deliveries: pending has fewer than six failures, dead exactly six, delivered at most one log entry more, a success; with nothing left unmarked the log is numbered 1..n and its successes are exactly the last |
| Delivery.SettledRowsRest | nem_pay/api/internal/webhook/deliver.go:82-95 | a delivered or dead row is never posted again, nor changed |
| Delivery.ClaimsWait | nem_pay/api/internal/repository/db/outbox.sql.go:15-36 | in any run of one row, a claimed row is not claimed again before its lease is over nor a refused one before its backoff is, unless a delivery ran to its end in between |
| Delivery.DeliveriesEnd | nem_pay/api/internal/webhook/deliver.go:124-141 | each delivery that runs to its end uses up one of the attempts left, and none is left exactly when the row is settled |
| Delivery.OverlapRevives | nem_pay/api/internal/repository/db/outbox.sql.go:207-237 | overlapping deliveries revive a dead row, count past the last attempt and kill a delivered row |
| Delivery.OverlapHarmlessIff | nem_pay/api/internal/repository/db/outbox.sql.go:207-250 | exactly when an overlapping delivery leaves a settled row's status alone, and exactly when any delivery leaves row and log alone altogether |
| Delivery.OverlapAbsorbedIff | nem_pay/api/internal/webhook/deliver.go:97-141 | for a row of any status and a copy read earlier: exactly when the delivery keeps the account that row and log give of each other |
| Delivery.OverlapIsToldIff | nem_pay/api/internal/webhook/deliver.go:82-141 | over any run of claims and overlapping deliveries, the account is kept up to a point if and only if every delivery that ended before it was absorbed |
| Delivery.CurrentIsAbsorbed | nem_pay/api/internal/webhook/deliver.go:86-95 | a delivery that holds the pending row as it is now is always absorbed |
| Delivery.Processor.ClaimDueOutbox | nem_pay/api/internal/repository/db/outbox.sql.go:15-66 | leases up to the limit of the due rows that nobody has locked, those due for longest, all of them if there are fewer, each once, and touches no other |
| Delivery.Processor.MarkOutboxDelivered | nem_pay/api/internal/repository/db/outbox.sql.go:224-231 | sets the status of the row of that id |
| Delivery.Processor.MarkOutboxDead | nem_pay/api/internal/repository/db/outbox.sql.go:207-222 | sets the status and counts the attempt of the row of that id |
| Delivery.Processor.MarkOutboxRetry | nem_pay/api/internal/repository/db/outbox.sql.go:233-250 | counts the attempt and sets the next time of the row of that id |
| Delivery.Processor.InsertDelivery | nem_pay/api/internal/repository/db/outbox.sql.go:90-113 | appends one log entry |
| Delivery.Processor.DeliverRow | nem_pay/api/internal/webhook/deliver.go:97-141 | one delivery, for every way it can end, as the delivery function of the row says |
| Delivery.Processor.DeliverByID | nem_pay/api/internal/webhook/deliver.go:82-95 | the same, and nothing for a row that is no longer pending |
| Delivery.Processor.ProcessDue | nem_pay/api/internal/webhook/deliver.go:50-63 | the claimed rows are delivered in order, once each, up to the first that does not run to its end; the rest stay leased, all other rows untouched |
| Merchant.WebhookHandler.MarkPaid | Nem_luxury/app/models/order.rb:24-34 | only a pending order becomes paid; a paid one is left alone; any other is refused |
| Merchant.WebhookHandler.Apply | Nem_luxury/app/services/nem_pay/webhook_handler.rb:30-47 | pays the order exactly for a captured payment of its amount and currency |
| Merchant.WebhookHandler.Commit | Nem_luxury/app/services/nem_pay/webhook_handler.rb:18-26 | insert first: a known event changes nothing and is a duplicate; a new one is recorded and pays exactly the pending order read, for a capture of its amount and currency; a capture without an order is unknown; a transaction that does not commit leaves nothing |
| Merchant.TransactReports | Nem_luxury/app/services/nem_pay/webhook_handler.rb:18-56 | the same of the specification |
| Merchant.WebhookHandler.Call | Nem_luxury/app/services/nem_pay/webhook_handler.rb:10-26 | the whole handler is one application of its specification |
| Merchant.TransactKeepsFinal | Nem_luxury/app/services/nem_pay/webhook_handler.rb:15-26 | one more delivery, even with a copy of the order read earlier, extends the closed account of all deliveries by exactly that delivery |
| Merchant.FinalIsUnique | Nem_luxury/app/services/nem_pay/webhook_handler.rb:15-26 | the closed account determines orders and processed events |
| Merchant.DeliveriesAmountTo | Nem_luxury/app/services/nem_pay/webhook_handler.rb:10-26 | whatever handlers run at once, crash or are repeated: an order is paid exactly if it was pending and a first delivery of a new event earned it, and each new event is recorded once |
| Merchant.OrderAndRepetitionDoNotMatter | Nem_luxury/app/services/nem_pay/webhook_handler.rb:2-8 | two delivery sequences of the same messages, with any duplicates and order, end in the same orders and processed events |
| Merchant.StaleReadHarmlessIff | Nem_luxury/app/services/nem_pay/webhook_handler.rb:15-21 | for any earlier read, of any row or of none: exactly when the handler ends as one that reads in the transaction |
| Merchant.StaleStatusHarmlessIff | Nem_luxury/app/services/nem_pay/webhook_handler.rb:15-42 | the case of a read that differs in status only |
| Merchant.MissedReadHarmlessIff | Nem_luxury/app/services/nem_pay/webhook_handler.rb:15-21 | the case of a read that found no order: harmless only if the event is known or there is still none |
| Merchant.AttachedTooLate | Nem_luxury/app/services/nem_pay/checkout.rb:32-32 | a concrete order that is given its intent id between the read and the transaction stays pending, and the redelivery is a duplicate |
| EndToEnd.StepKeepsBacking | nem_pay/api/internal/service/money.go:183-196 | every captured event in the outbox has, in the ledger, a capture of exactly its intent, amount and currency |
| EndToEnd.StepKeepsClimb | nem_pay/api/internal/service/money.go:127-133 | the events of one intent climb in rank, so no status of it is announced twice |
| EndToEnd.NextKeepsInv | Nem_luxury/app/services/nem_pay/webhook_handler.rb:15-42 | every step of either service keeps that each paid order is recorded against a captured event of its own intent, amount and currency |
| EndToEnd.PaidMeansCaptured | Nem_luxury/app/services/nem_pay/webhook_handler.rb:3-8 | an order is paid only if the gateway's ledger holds a capture of its intent for exactly the order's amount and currency, after any run of both services with any deliveries, cancellations included |
| EndToEnd.OneCapturePaysOneOrder | Nem_luxury/app/services/nem_pay/webhook_handler.rb:15-21 | one capture never pays two orders, even where two carry the same intent id |
| EndToEnd.PaidIsRecorded | Nem_luxury/app/services/nem_pay/webhook_handler.rb:18-21 | a paid order is the one its intent's captured event is recorded against |
| EndToEnd.FirstCommitPaysIff | Nem_luxury/app/services/nem_pay/webhook_handler.rb:15-47 | in any run of both services, the first handler to commit a captured event pays an order of its intent if and only if, when that handler arrived, this was the order found, pending and of equal amount and currency |
| EndToEnd.UnpaidAtRecordStaysUnpaid | Nem_luxury/app/services/nem_pay/webhook_handler.rb:2-8 | an order that is not paid when the captured event of its intent is recorded is never paid later, whatever is delivered and whenever it is given the intent's id |
| EndToEnd.LateIntentIdIsLost | Nem_luxury/app/services/nem_pay/webhook_handler.rb:15-23 | no order but the one the event is recorded against is ever paid; none at all when it is recorded against none |
| Grouping.Transactions | nem_pay/api/internal/httpapi/portal_reads.go:133-148 | the loop yields each transaction once, in the order of first rows, with exactly its rows' lines in row order and its first row's kind |
| Grouping.GroupsPartitionTheRows | nem_pay/api/internal/httpapi/portal_reads.go:133-148 | transactions are distinct, every row's is there, and together they hold as many lines as there are rows |
| Grouping.LinesKeepRowOrder | nem_pay/api/internal/httpapi/portal_reads.go:142-144 | every row's line stands in its own group, behind exactly the lines of that transaction's earlier rows |
| Grouping.KindIsOfFirstRow | nem_pay/api/internal/httpapi/portal_reads.go:136-141 | a group has the kind of its first row |
| Grouping.IdsAppearInOrder | nem_pay/api/internal/httpapi/portal_reads.go:135-141 | of two transactions in the result, the earlier one's first row comes first |
| Grouping.ViewBalances | nem_pay/api/internal/repository/db/ledger.sql.go:79-109 | on every reachable ledger the view shows exactly the intent's transactions, and each balances, however ties in time are ordered |
| Luhn.LuhnValid | nem_pay/api/internal/httpapi/tokens.go:127-143 | the loop accepts exactly the digit strings whose contributions (every second digit from the right doubled, its digits added) sum to a multiple of ten |
| Luhn.DigitsOnly | nem_pay/api/internal/httpapi/tokens.go:115-125 | true exactly for non-empty strings of ASCII digits |
| Luhn.OneWrongDigitIsCaught | nem_pay/api/internal/httpapi/tokens.go:127-143 | changing any one digit of a valid number of any length makes it invalid |
| Luhn.SwapIsCaughtUnless09 | nem_pay/api/internal/httpapi/tokens.go:127-143 | swapping two adjacent different digits of a valid number keeps it valid if and only if they are 0 and 9 |
| Luhn.CheckDigitIsUnique | nem_pay/api/internal/httpapi/tokens.go:127-143 | every prefix has exactly one check digit, given by a formula |

## Left out

- HTTP routing, authentication, JSON binding, error envelopes, CORS and docs: of a handler only the status and body it produces remain. The key header and the body cap of the idempotency wrapper are kept; the check that a merchant is authenticated, and a body that cannot be read, are not.
- Hashes and signatures: the request hash is taken to be free of collisions, and a webhook the shop verified to be one the gateway emitted.
- The bank simulator: a parameter with its answer.
- A commit whose acknowledgement is lost: a failing commit is taken not to have happened, as the code takes it.
- Deadlock freedom and liveness: account upserts lock in different orders, and an aborted transaction is a step that rolls back. Termination measures and bounds are proved instead.
- Listings of the sweeps: their order, page size and age test. The sweeps are proved for any listing.
- Entries as rows of their own: an entry lives inside its transaction, so its foreign key needs no proof. Ids of intents and transactions are row numbers; uuids are numbers of which only equality matters.
- Helper methods in `Service` hold the statements that the Go functions repeat (accounts, posting, status, event, commit); the order of the statements is that of the source. The interleaving of these statements with other calls is the subject of `Concurrency`, not of the methods.
- Metadata, creation times, last errors and response headers: carried along by the source, never decided on.
- `Dispatch` and its task queue: a claim followed by deliveries by id, which the delivery runs allow in any order.
- Bytes and text: card numbers, request bodies and fingerprints are byte sequences; other text is characters. A currency outside ASCII counts its length in characters rather than bytes, and is refused either way.
- Numerics that are infinite, which no query of the gateway returns.
- Tenant-scoped reads, pagination, the list endpoint, webhook-endpoint configuration, portal users and the React portal: single-filter facts.
- The rest of the shop: products, forms and views. An order may take any intent id, once, while it is pending; `EndToEnd` needs no more. Where two orders carried one intent id, the first row is the one found.
- Merchant.OrderAndRepetitionDoNotMatter: takes messages of one event id to be copies of one another, as the gateway sends them; with unsigned event ids that differ, `DeliveriesAmountTo` still says exactly what the deliveries make.
- Merchant.DeliveriesAmountTo: orders change only through the handlers; `StaleReadHarmlessIff` says what an outside change can do, and `EndToEnd` allows it.
- Delivery.RowsAreTold: deliveries of one row do not overlap, as its task id ensures; `OverlapIsToldIff` says exactly what overlap does to it.
- Delivery.SettledRowsRest: the same; `OverlapHarmlessIff` says exactly when an overlapping delivery leaves a settled row alone.
