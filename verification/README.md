# Payments, invoices and webhooks: a verified model

This project models the hard parts of an invoicing service and proves what they guarantee:

- **Payment protocol.** `PayInvoice` claims an idempotency key and a payment attempt in one
  transaction, calls the payment service provider (PSP) outside any transaction, and settles
  the outcome in a second one. `VoidInvoice` reads and writes the invoice in no common
  transaction. `Protocol` is a step machine in which any number of such requests interleave,
  any statement may fail, and any request may crash anywhere. A ledger in the state records what
  the PSP was asked for and what it really charged.
- **Webhook delivery queue.** Leased claims, expiry, reclaims, the retry schedule and
  exhaustion, for any number of workers sharing one clock, with claims that are abandoned.
- **Kernels.** The Feistel and base62 codec of public identifiers, the Snowflake id generator
  under an arbitrary clock, the overflow-checked invoice total, the item listing, and the
  request fingerprint.

The layers, bottom up:

| layer | modules |
|---|---|
| Go's machine integers, 64-bit words and strings | `MachineInt`, `Word64`, `Text`, `Wrappers`, `Ordered` |
| kernels | `InvoiceTotal`, `InvoiceItems`, `Feistel`, `Base62`, `PublicId`, `Snowflake`, `Fingerprint` |
| tables and constraints; each transaction as one atomic function | `Schema`, `Transactions` |
| the same transactions statement by statement, as classes and methods proved equal to those functions | `Database`, `Handlers`, `Endpoints` |
| the payment step machine and its inductive invariant | `Protocol`, `TableInvariants`, `SystemInvariants` |
| theorems about all its runs | `PaymentTheorems`, `Outcomes`, `InvoiceStates`, `Replay`, `Outbox`, `Conservation`, `Counterexamples` |
| the delivery queue, its invariants, its timing, and the worker's code | `DeliveryQueue`, `DeliveryOutcomes`, `DeliveryInvariants`, `DeliveryTiming`, `DeliveryCounterexamples`, `DeliveryWorker` |

`dafny verify dfyconfig.toml` checks everything.

## How to read the model

- Primary keys drawn from the id generator are arbitrary parameters (`ClaimIds`, `rowIds`): a
  clash fails the insert, as in the database, and no payment theorem relies on their being fresh.
- `failAt` numbers the statement, commit included, that the server refuses for a reason outside
  the model. A failed statement breaks its transaction, so a later commit rolls back. This is
  what makes the dropped results of `QueueDeliveries` harmless, and `Handlers.Finalize` proves it.
- A commit whose acknowledgement is lost is a committed step followed by a crash of the request.
- The digest behind the fingerprint is an arbitrary function. Replay theorems assume only that
  it does not confuse the two preimages at hand (`Fingerprint.Separates`). The round keys of the
  public-id cipher are an arbitrary function of the prefix.
- "succeeded" from the PSP means charged, "failed" means not charged, an error means either.
- The stored body is a JSONB column, so a replay is equal to the first answer as a JSON value. The
  model has such values and no bytes; `Body` is one.
- A delivery row's payload columns live in the payment tables and its schedule columns in the
  delivery queue, with `Enqueue` for the insert. A claimed batch whose reply is lost is a claim step
  followed by abandonments.

## Properties that do not hold of the code

Each of these has a concrete failing input and the exact condition under which it does hold.

| claim | why it fails | failing input | when it holds |
|---|---|---|---|
| PAID is terminal | the void's update does not test the state | `Counterexamples.PaidIsNotTerminal` | exactly when no void is pending on the invoice (`InvoiceStates.PaidForeverExactlyWhen`); always if voids are atomic |
| DELIVERED and EXHAUSTED are terminal | the mark statements filter on the row's id alone | `DeliveryCounterexamples.DeliveredIsNotTerminal`, `DeliveryCounterexamples.DeliveredMayTurnExhausted` | each status lasts over all later runs exactly when nobody holds the row (`DeliveryInvariants.TerminalForeverExactlyWhen`), and changes in one step exactly on a holder's contrary mark (`DeliveryInvariants.TerminalStatusChangesExactlyWhen`); always under the lease discipline |
| at most six delivery attempts | the claim has no cap | `DeliveryCounterexamples.AttemptCountIsUncapped`, `DeliveryCounterexamples.OvertakesAddUp` | a step passes six exactly when it claims a row claimed six times (`DeliveryInvariants.PassesSixByClaim`); under the lease discipline, one whose sixth claim was abandoned (`DeliveryInvariants.PassesSixExactlyWhen`) |
| `Decode` inverts `Encode` for every prefix | the text is split at the first underscore | `PublicId.RoundTrip` with the prefix "a_b" | for nonempty prefixes, exactly when they have no underscore (`PublicId.RoundTrip`) |
| ids are unique | `cmd/api/main.go` makes two generators with the same node id | `Snowflake.FirstIds` with m = n = 1 | fresh generators collide exactly on equal masked node ids and equal readings (`Snowflake.FirstIds`), any two exactly on equal node ids and stamps (`Snowflake.CollideExactlyWhen`) |
| a request that loses its key to another is told that a payment is in progress | only the attempt insert maps a unique violation to that answer, and it comes after the key insert | `Counterexamples.KeyRaceIsInternalError` | never for the same key (`PaymentTheorems.SameKeyLoserAnswer`); for any loser on an open invoice, exactly when the key insert is not what fails (`PaymentTheorems.LosersAnswer`) |
| an answer shows the invoice's current state | a failed or unknown outcome answers the state read at the claim, and a replay answers what was stored | `Counterexamples.AnswerMayBeStale` | a fresh answer, exactly when no void came in between (`Replay.FreshAnswerReportsTheRecord`); a stored one, and so its replays, exactly while the invoice is not VOID for a 200 and still OPEN for any other (`PaymentTheorems.StoredAnswerIsCurrentExactlyWhen`) |
| a confirmed charge is recorded | finalize rolls back when the invoice is no longer OPEN | `Counterexamples.ChargeMayGoUnrecorded` | exactly when the invoice is still OPEN, the outbox rows can be inserted and no statement fails (`Replay.ChargeIsRecordedExactlyWhen`) |
| later ids of a generator are larger | after 41 bits of milliseconds the sign bit is set | `Snowflake.OrderBreaksExactlyAtOverflow` with stamps on either side of 2^41 ms | for 42 bits of milliseconds, exactly between stamps on the same side (`Snowflake.OrderBreaksExactlyAtOverflow`) |

## Model

| member | source | states |
|---|---|---|
| PaymentTheorems.ChargedAtMostOnce | internal/payment/payment.go:74-244 | Over every interleaving of payments and voids with faults and crashes, no two real charges are for the same invoice. |
| PaymentTheorems.OneCallPerKey | internal/payment/payment.go:81-119 | No two PSP calls belong to the same key of the same business, however many requests missed the key in the unlocked read. |
| PaymentTheorems.KeyAndAttemptPairOff | internal/db/migrations/20260924102048_initial_schema.sql:111-132 | In every reachable state each key row has exactly one attempt, of its own business; PROCESSING matches PROCESSING, and 200, 402, 202 match SUCCEEDED, FAILED, UNKNOWN, in both directions. |
| PaymentTheorems.AttemptHasKey | internal/payment/payment.go:104-119 | The converse: no attempt is ever without its key row, and they are processing together. |
| PaymentTheorems.StoredAnswersReport | internal/payment/payment.go:138-192 | In every reachable state a stored answer reports its attempt's status, PSP reference and failure code, and an unknown outcome's reason; a declined payment's reason is in the row only. |
| PaymentTheorems.StoredAnswerIsCurrentExactlyWhen | internal/payment/payment.go:138-192 | In every reachable state a stored answer shows the invoice's current state if and only if the invoice is not VOID, for a 200, or still OPEN, for a 402 or 202. |
| PaymentTheorems.AttemptsOfOneInvoice | internal/db/migrations/20260924102048_initial_schema.sql:137 | An invoice never has two unresolved attempts; next to a SUCCEEDED attempt every other one is FAILED. |
| PaymentTheorems.RowsAreUnique | internal/db/migrations/20260924102048_initial_schema.sql:111-133 | In every reachable state no two keys share business and key text, and no two attempts share a key row or a PSP request id. |
| PaymentTheorems.PaidMeansCharged | internal/payment/payment.go:165-171 | A PAID invoice has exactly one SUCCEEDED attempt, and the ledger holds a real charge of the stored total for that attempt. |
| PaymentTheorems.SucceededMeansNotOpen | internal/payment/payment.go:165-171 | A SUCCEEDED attempt's invoice is PAID or VOID. |
| PaymentTheorems.ChargedIsNeverDeclined | internal/payment/payment.go:139-189 | In every reachable state the attempt of a real charge is SUCCEEDED or unresolved, so no charged request is ever answered 402. |
| PaymentTheorems.LosersAnswer | internal/payment/payment.go:104-115 | A fault-free claim of an open invoice that loses is answered with an internal error if and only if the key insert is refused, and "in progress" if and only if it is not. |
| PaymentTheorems.SameKeyLoserAnswer | internal/payment/payment.go:97-107 | A claim whose key another request took is refused as an internal error, not found or not payable, by its first obstacle; never as in progress and never with the stored answer; nothing changes. |
| PaymentTheorems.CallsAskForTheTotal | internal/payment/payment.go:237 | Every PSP call asks for its invoice's stored total, on behalf of the invoice's own business. |
| SystemInvariants.StepKeepsInv | internal/payment/payment.go:74-244 | Every step of every request keeps the joint invariant of tables, PSP ledger and request locals. |
| SystemInvariants.ReachableInv | internal/payment/payment.go:74-244 | Hence every state reachable from empty tables satisfies it. |
| TableInvariants.ClaimKeepsTables | internal/payment/payment.go:97-119 | The two inserts of a won claim keep unique keys, foreign keys, the pairing of keys and attempts, and the outbox in order. |
| TableInvariants.FinalizeKeepsTables | internal/payment/payment.go:139-196 | So does every committed finalize by the request that owns the rows, in each of its three branches. |
| TableInvariants.VoidKeepsTables | internal/db/generate/queries.sql.go:428-431 | So does the unguarded void write, whenever it comes. |
| TableInvariants.CreateKeepsTables | internal/invoice/invoice.go:308-351 | So does the creation of an invoice with its items and outbox rows. |
| InvoiceStates.StateStep | internal/invoice/invoice.go:486-507 | One step changes an invoice's state only from OPEN to PAID, or to VOID by a pending void's write; total and business never change. |
| InvoiceStates.NeverReopens | internal/db/generate/payment.sql.go:200-204 | Over any run, an invoice that is not OPEN never becomes OPEN. |
| InvoiceStates.VoidIsTerminal | internal/invoice/invoice.go:486-507 | Over any run, VOID stays VOID, although void reads and writes in separate steps. |
| InvoiceStates.PaidUntilOverwritten | internal/db/generate/queries.sql.go:428-431 | After any run a PAID invoice is VOID if some pending void wrote to it, and PAID otherwise. |
| InvoiceStates.PaidForeverExactlyWhen | internal/db/generate/queries.sql.go:428-431 | A PAID invoice stays PAID over every later run if and only if no request stands between its read and its write of a void on it. |
| InvoiceStates.PaidIsTerminalUnderAtomicVoids | internal/invoice/invoice.go:473-507 | If nothing separates the read and the write of any void, PAID is terminal. |
| Counterexamples.PaidIsNotTerminal | internal/invoice/invoice.go:473-507 | A concrete run of eight steps whose invoice is PAID after seven and VOID after eight. |
| Counterexamples.AnswerMayBeStale | internal/payment/payment.go:138-155 | A concrete run whose 402 answer says OPEN about an invoice that is VOID. |
| Counterexamples.ChargeMayGoUnrecorded | internal/payment/payment.go:165-171 | A concrete run that ends with one real charge, a VOID invoice, a PROCESSING attempt and a failed finalize. |
| Counterexamples.KeyRaceIsInternalError | internal/payment/payment.go:104-107 | A concrete run of the same request twice: both miss the key, the first claim wins, the second gets an internal error. |
| Replay.StoredResponseIsFinal | internal/db/generate/payment.sql.go:14-18 | Once a key is COMPLETED no run changes its row. |
| Replay.FreshAnswerIsStored | internal/payment/payment.go:185-196 | A committed finalize stores the answer it gives, under the request's own key and fingerprint. |
| Replay.FreshAnswerReportsTheRecord | internal/payment/payment.go:138-192 | A fresh answer reports the recorded attempt; its invoice state is the current one if and only if no void came between claim and finalize. |
| Replay.ReadOfCompleted | internal/payment/payment.go:81-92 | A key read of a COMPLETED row replays the stored answer if invoice and token are the same, and reports the conflict otherwise. |
| Replay.AnswersAreReplayed | internal/payment/payment.go:233-243 | After a payment was answered and any run went by, a request with the same key gets that same answer or the conflict, without a state change or PSP call. |
| Replay.OrphanBlocksForever | internal/payment/payment.go:139-146 | An unresolved attempt no request works on stays as it is for good, and its invoice sees no further PSP call. |
| Replay.OrphanIsNeverAnswered | internal/payment/payment.go:82-92 | Over every later run, a key read for an orphan still PROCESSING answers in progress or the conflict, by the fingerprint, or an error; the payment's outcome is never told. |
| Replay.CrashOrphans | internal/payment/payment.go:116-119 | A request that crashes between its claim and its settled outcome leaves such an attempt. |
| Replay.VoidStrandsTheCharge | internal/payment/payment.go:165-171 | A void between charge and finalize rolls finalize back: the card is charged, nothing is recorded, and the attempt left PROCESSING is orphaned. |
| Replay.ChargeIsRecordedExactlyWhen | internal/payment/payment.go:165-195 | After a confirmed charge, finalize leaves the attempt SUCCEEDED if and only if the invoice is still OPEN, the outbox rows can be inserted and no statement fails. |
| Outcomes.AmbiguousOutcome | internal/payment/payment.go:139-146 | An ambiguous PSP answer is recorded as UNKNOWN, stored and answered as 202 and not announced, if and only if none of the three statements fails; otherwise nothing changes. |
| Outcomes.DeclineOutcome | internal/payment/payment.go:147-163 | A decline is recorded as FAILED with the PSP's code, stored and answered as 402 and announced to each active endpoint, if and only if the outbox ids are new and no statement fails; otherwise nothing changes. |
| Outcomes.SuccessOutcome | internal/payment/payment.go:164-184 | A success is recorded with the PSP's reference, makes the invoice PAID, is stored and answered as 200 and announced to each active endpoint, if and only if the invoice is still OPEN, the outbox ids are new and no statement fails; otherwise nothing changes. |
| Outcomes.ArriveTakesWholeTexts | internal/payment/payment.go:199-216 | Whatever blanks surround them, key and token are taken whole; a request is bad exactly when one of them is blank or the key exceeds 255 bytes. |
| Outcomes.PlainRequestsArrive | internal/payment/payment.go:201-216 | A key of 1 to 255 ASCII characters and a token, both without outer blanks, get in unchanged. |
| Outcomes.UntakenKeyIsMissed | internal/payment/payment.go:81-96 | A key of which the business has no row is missed, unless the read fails. |
| Outcomes.WonClaimInserts | internal/payment/payment.go:104-119 | A won claim adds one PROCESSING key under the request's fingerprint and one PROCESSING attempt for it, and nothing else. |
| Outcomes.ChargeCallsOnce | internal/payment/payment.go:237 | A charge is one PSP call for the locked total; it really charges on a success, not on a decline, and either way on an error. |
| Outcomes.ActiveEndpointsAre | internal/db/generate/webhook.sql.go:189-193 | The listed endpoints are exactly the business's active ones, by id. |
| Outcomes.CreationOutcome | internal/invoice/invoice.go:291-351 | A creation stores the invoice in the requested state, with the exact total, for the requesting business, if and only if all ids are new and no statement fails; otherwise nothing changes. |
| Outcomes.CrashForgetsTheRequest | internal/payment/payment.go:237-243 | A crash loses a request's locals and nothing of the tables or the ledger. |
| Outcomes.EndpointOutcomes | internal/db/generate/webhook.sql.go:131-135 | A new endpoint is active; an operator's change sets the flag and nothing else. |
| Outbox.FinalizeAnnouncesExactly | internal/payment/payment.go:139-196 | A committed success or failure adds exactly one outbox row per endpoint active at that moment; an unknown outcome or a rollback adds none. |
| Outbox.CreationAnnouncesExactly | internal/invoice/invoice.go:338-351 | A creation adds one INVOICE.CREATED row with the exact total per active endpoint, or leaves the tables unchanged. |
| Outbox.OtherStepsKeepOutbox | internal/webhook/webhook.go:393-413 | No other step touches the outbox. |
| Outbox.RowsPersist | internal/webhook/webhook.go:393-413 | Over any run, an outbox row never disappears and its payload never changes. |
| Outbox.PaidAnnouncedOnce | internal/payment/payment.go:176-183 | In every reachable state an invoice and endpoint share at most one INVOICE.PAID and at most one INVOICE.CREATED row. |
| Outbox.FailureRowsBounded | internal/payment/payment.go:156-163 | In every reachable state an endpoint's INVOICE.PAYMENT_FAILED rows for an invoice are no more than the invoice's FAILED attempts. |
| Conservation.TotalsAreConserved | internal/invoice/invoice.go:241-269 | In every reachable state each invoice's stored lines, listed as the query lists them, fit in an int64 and sum to its stored total. |
| Conservation.ItemsKeepRequestOrder | internal/invoice/invoice.go:323-336 | After a creation and any later run, the item query returns the request's lines in request order, with trimmed descriptions and the requested quantities and unit amounts. |
| Conservation.ChargesEqualLineSums | internal/payment/payment.go:237 | The amount of every PSP call equals the sum of the invoice's stored lines. |
| Transactions.FindKey | internal/db/generate/payment.sql.go:121-124 | The key query finds a row of this business and key exactly when there is one. |
| Database.Store.GetIdempotencyKey | internal/db/generate/payment.sql.go:121-124 | Under the unique key the query returns the one matching row, or none when there is none. |
| Database.Store.GetInvoiceByID | internal/db/generate/queries.sql.go:244-246 | The read returns the business's own invoice, or no row. |
| Database.Store.UpdateInvoiceStateToVoid | internal/db/generate/queries.sql.go:428-431 | The update hits exactly the business's own invoice, in whatever state, and nothing else. |
| Database.Transaction.GetInvoiceForPayment | internal/db/generate/payment.sql.go:148-152 | The locking read returns the business's own invoice, or no row. |
| Database.Transaction.CreateIdempotencyKey | internal/db/generate/payment.sql.go:44-50 | Inserts the key, or breaks the transaction on a duplicate id or a duplicate (business, key) pair. |
| Database.Transaction.CreatePaymentAttempt | internal/db/generate/payment.sql.go:81-87 | Inserts the attempt, or breaks the transaction on the primary key, any of the three unique indexes, or a missing invoice or key; only the first two are unique violations. |
| Database.Transaction.MarkPaymentAttempt | internal/db/generate/payment.sql.go:228-299 | The three outcome updates: they hit only a PROCESSING attempt, and otherwise report no row. |
| Database.Transaction.MarkInvoicePaid | internal/db/generate/payment.sql.go:200-204 | Hits only the business's own OPEN invoice. |
| Database.Transaction.CompleteIdempotencyKey | internal/db/generate/payment.sql.go:14-19 | Hits only a key that has no response yet. |
| Database.Transaction.ListActiveWebhookEndpoints | internal/db/generate/webhook.sql.go:189-193 | Lists the business's active endpoints in id order. |
| Database.Transaction.CreateWebhookDelivery | internal/db/generate/webhook.sql.go:88-96 | Inserts one outbox row, or breaks the transaction on a duplicate id or a missing endpoint or invoice. |
| Database.Transaction.CreateInvoice | internal/db/generate/queries.sql.go:98-101 | Inserts the invoice, or breaks the transaction on a duplicate id or a negative total. |
| Database.Transaction.CreateInvoiceItem | internal/db/generate/queries.sql.go:138-141 | Inserts the item, or breaks the transaction on a duplicate id, a violated row check or a missing invoice. |
| Database.Transaction.Commit | internal/payment/payment.go:193-195 | Installs the transaction's work exactly when no statement failed, and otherwise leaves the tables as they were. |
| Database.QueueDeliveries | internal/webhook/webhook.go:393-413 | Either one row per active endpoint is inserted, or the transaction is left broken so that nothing can commit. |
| TableInvariants.QueuedContents | internal/webhook/webhook.go:399-410 | The insert loop keeps every old row and adds exactly the listed ones. |
| Handlers.LookupKey | internal/payment/payment.go:81-96 | The unlocked read and its decision equal the atomic lookup. |
| Handlers.LockAndClaim | internal/payment/payment.go:97-119 | The claim's statements, run one by one with any fault, equal the all-or-nothing claim, with the error the code maps each failure to. |
| Handlers.Finalize | internal/payment/payment.go:128-197 | The settling transaction with its dropped queueing errors equals the all-or-nothing finalize in all three branches. |
| PaymentTheorems.ClaimWinsExactlyWhen | internal/payment/payment.go:97-119 | A claim wins exactly when the invoice is owned and OPEN, both rows can be inserted and no statement fails; a losing claim leaves tables and ledger unchanged. |
| PaymentTheorems.UnresolvedBlocksClaims | internal/db/migrations/20260924102048_initial_schema.sql:137 | While an invoice has an unresolved attempt, no claim on it can win. |
| InvoiceStates.VoidAnswersTellTheRow | internal/invoice/invoice.go:473-507 | A void finds nothing exactly if the invoice is not the business's own, is refused exactly if it is PAID or UNCOLLECTIBLE, and is already done exactly if it is VOID. |
| InvoiceStates.AtomicVoidOutcome | internal/invoice/invoice.go:473-507 | An undisturbed void turns exactly the business's own DRAFT and OPEN invoices VOID, changes nothing else, and answers not found, refused, already void or voided as the row calls for. |
| Handlers.InsertItems | internal/invoice/invoice.go:323-336 | The item loop inserts all trimmed items in request order, or leaves the transaction broken. |
| Handlers.StoreInvoice | internal/invoice/invoice.go:308-351 | The creation transaction equals the all-or-nothing creation. |
| Endpoints.Enter | internal/payment/payment.go:217-236 | The claim half of a request, from lookup to a won claim or an answer, is a run of two steps of the machine. |
| Endpoints.Conclude | internal/payment/payment.go:237-243 | The charge and finalize half is a run of two steps, with one call in the ledger. |
| Endpoints.PathNamesInvoice | internal/payment/payment.go:206-210 | The public identifier of an invoice in the path names it; one of any other resource names none. |
| Endpoints.PayInvoice | internal/payment/payment.go:199-244 | A bad header or path answers at once and changes nothing; otherwise an undisturbed request leaves the tables, the PSP ledger and the answer of its five steps, faults included. |
| Endpoints.VoidInvoice | internal/invoice/invoice.go:466-507 | Likewise for a void, its two steps and a failing read or write. |
| Endpoints.CreateInvoiceEndpoint | internal/invoice/invoice.go:236-356 | Validation, total and transaction together are one creation step; items are refused exactly when there are none or they do not fit, the state exactly when it is neither DRAFT nor OPEN; a stored invoice has the requested state, business and exact total, and otherwise nothing changes. |
| DeliveryInvariants.IntervalIndexInRange | internal/webhook/webhook.go:365-373 | In every run, a worker that retries finds its interval in the table: the clamps never fire. |
| DeliveryInvariants.StepKeepsInv | internal/db/generate/webhook.sql.go:14-31 | Under the lease discipline every step keeps claims exclusive and counts bounded. |
| DeliveryInvariants.DisciplinedRunKeepsInv | internal/webhook/webhook.go:297-384 | So does every disciplined run, with any number of workers and abandonments. |
| DeliveryInvariants.OneLiveClaimPerDelivery | internal/webhook/webhook.go:297-384 | In a disciplined run no two live claims are for the same delivery. |
| DeliveryInvariants.ClaimsPerDeliveryBounded | internal/webhook/webhook.go:350-373 | In a disciplined run a delivery's attempt count is its number of claims, at most six plus its abandoned claims. |
| DeliveryInvariants.ClaimsAccountedFor | internal/webhook/webhook.go:350-373 | In a disciplined run the attempt count is exactly the failures, plus the abandoned claims, plus one for a live or a successful claim. |
| DeliveryInvariants.PassesSixByClaim | internal/db/generate/webhook.sql.go:18-27 | In any state whatever, a step takes the count past six if and only if it claims a row that was claimed six times. |
| DeliveryInvariants.PassesSixExactlyWhen | internal/db/generate/webhook.sql.go:18-27 | Under the lease discipline, that row is PROCESSING in nobody's hands, and some claim of it was abandoned. |
| DeliveryInvariants.TerminalIsFinal | internal/db/generate/webhook.sql.go:257-324 | In a disciplined run DELIVERED and EXHAUSTED rows never change again. |
| DeliveryInvariants.TerminalStatusChangesExactlyWhen | internal/db/generate/webhook.sql.go:257-324 | Without any discipline, a step changes the status of a DELIVERED or EXHAUSTED row if and only if a holder of the row marks it otherwise: failed when it is DELIVERED or the holder saw fewer than six attempts, delivered when it is EXHAUSTED. |
| DeliveryInvariants.TerminalForeverExactlyWhen | internal/db/generate/webhook.sql.go:257-324 | A DELIVERED or EXHAUSTED row keeps its status over every later run if and only if nobody holds it now. |
| DeliveryInvariants.TerminalUnlessLateRetry | internal/db/generate/webhook.sql.go:317-324 | Without any discipline, a step makes a DELIVERED or EXHAUSTED row active again if and only if it is a retry mark by a holder that saw fewer than six attempts. |
| DeliveryCounterexamples.DeliveredIsNotTerminal | internal/db/generate/webhook.sql.go:317-324 | A concrete run in which a late failure report puts a DELIVERED row back to PENDING. |
| DeliveryCounterexamples.DeliveredMayTurnExhausted | internal/db/generate/webhook.sql.go:285-291 | A concrete run in which a delivered webhook is recorded as given up by an overtaken sixth claim. |
| DeliveryCounterexamples.AttemptCountIsUncapped | internal/db/generate/webhook.sql.go:24-27 | For every n a run of n abandoned claims brings the attempt count to n. |
| DeliveryCounterexamples.OvertakesAddUp | internal/db/generate/webhook.sql.go:18-27 | For every n a run of n claims that outlive their leases brings the attempt count to n with nothing abandoned. |
| DeliveryTiming.RetriesWait | internal/webhook/webhook.go:365-380 | Without abandoned claims, claim n + 1 comes no earlier than failure n plus the n-th interval. |
| DeliveryTiming.ExhaustionTakes876Minutes | internal/webhook/webhook.go:238-245 | Without abandoned claims, an exhausted delivery was claimed and failed six times, the sixth claim at least 876 minutes after the first failure. |
| DeliveryTiming.AheadShrinks | internal/db/generate/webhook.sql.go:15-22 | Once the clock has passed a row's due time, no step adds to the active rows due no later, while the row is left alone. |
| DeliveryTiming.PassedOverByWholeBatch | internal/db/generate/webhook.sql.go:20-27 | A claim step that passes a waiting row over removes a whole batch from ahead of it. |
| DeliveryTiming.WaitingIsBounded | internal/db/generate/webhook.sql.go:15-27 | Fewer than k / batch claim steps can pass a waiting row over, for k active rows due no later, whatever all workers do. |
| DeliveryTiming.UnheldChangesByClaim | internal/db/generate/webhook.sql.go:14-31 | Only a claim that takes it changes a row nobody holds. |
| DeliveryTiming.WaitingRowIsClaimed | internal/webhook/webhook.go:297-302 | Such a row, held by nobody, is claimed within ceil(k / batch) claim steps, with no lease discipline at all; this covers the one sequential worker whose batch outlasts its lease. |
| DeliveryTiming.WaitingHolderIsExpired | internal/db/generate/webhook.sql.go:18-19 | In a disciplined state a row past its due time is held only by a claim whose lease has ended. |
| DeliveryWorker.DeliveryTable.SelectDue | internal/db/generate/webhook.sql.go:15-22 | Selects due rows, earliest first, as many as there are up to the limit. |
| DeliveryWorker.DeliveryTable.ClaimDue | internal/db/generate/webhook.sql.go:14-31 | The claim statement is a claim step of the queue and returns each row with its incremented count. |
| DeliveryWorker.DeliveryTable.MarkWebhookDeliveryDelivered | internal/db/generate/webhook.sql.go:257-264 | Overwrites the row whatever its status, and no other; an id without a row changes nothing and is reported. |
| DeliveryWorker.DeliveryTable.MarkWebhookDeliveryExhausted | internal/db/generate/webhook.sql.go:285-291 | Likewise, to EXHAUSTED with the error. |
| DeliveryWorker.DeliveryTable.MarkWebhookDeliveryRetry | internal/db/generate/webhook.sql.go:317-324 | Likewise, to PENDING with a new due time. |
| DeliveryWorker.Worker.constructor | internal/webhook/webhook.go:258-279 | A worker has the given lease and batch size where they are positive, and thirty seconds and ten rows where they are not. |
| DeliveryWorker.Worker.HandleFailure | internal/webhook/webhook.go:350-384 | Reporting a failure is the queue's failure step, or an abandonment when the mark is refused. |
| DeliveryWorker.Worker.DeliverOne | internal/webhook/webhook.go:317-348 | A delivery succeeds exactly on a 2xx answer; every other outcome is a failure step with its message. |
| DeliveryWorker.Worker.ProcessBatch | internal/webhook/webhook.go:296-315 | A claimed batch is exactly a claim of due rows followed by one turn per row, in which that row's own claim is marked as its own outcome calls for; it leaves no claim of its own live, so a worker alone keeps the discipline, and it returns the batch size. |
| DeliveryWorker.TurnAt | internal/webhook/webhook.go:310-348 | The j-th turn marks the j-th claim delivered exactly on a 2xx answer and otherwise failed with the message for what went wrong, or gives it up if the mark is refused. |
| DeliveryOutcomes.EnqueueOutcome | internal/db/generate/webhook.sql.go:88-96 | A new delivery is PENDING, uncounted and due at once. |
| DeliveryOutcomes.ClaimOutcome | internal/db/generate/webhook.sql.go:14-31 | A claim takes at most a batch of due PENDING or PROCESSING rows, counts the attempt and leases them; the other rows stay. |
| DeliveryOutcomes.PassedOver | internal/db/generate/webhook.sql.go:15-22 | A due row that a claim leaves out is due no earlier than any it takes. |
| DeliveryOutcomes.DeliveredOutcome | internal/db/generate/webhook.sql.go:257-264 | A delivered row gets its time and loses its last error. |
| DeliveryOutcomes.FailedOutcome | internal/webhook/webhook.go:239-245 | After failures one to five the row is due again in 1, 5, 30, 120 and 720 minutes; after the sixth it is EXHAUSTED; the error is kept. |
| DeliveryOutcomes.AbandonedOutcome | internal/webhook/webhook.go:344-348 | An abandoned claim leaves its row as it is. |
| Feistel.CipherIsBijective | internal/publicid/publicid.go:109-137 | Encryption and decryption undo each other in both directions, for all blocks and round keys. |
| Feistel.KnownBlock | internal/publicid/publicid.go:104-122 | One block and one set of round keys, through all four rounds. |
| Feistel.Encrypt | internal/publicid/publicid.go:110-122 | The encryption loop, as an in-place update of two halves, is undone by decryption. |
| Feistel.Decrypt | internal/publicid/publicid.go:125-137 | The decryption loop is undone by encryption. |
| Base62.IndexByte | internal/publicid/publicid.go:169 | The search finds a character's digit value, or -1 exactly outside the alphabet. |
| Base62.ValueOfCanonical | internal/publicid/publicid.go:141-162 | A number's digit string has that number as its exact value. |
| Base62.CanonicalLeads | internal/publicid/publicid.go:141-144 | A digit string leads with zero exactly when it is "0". |
| Base62.ElevenDigits | internal/publicid/publicid.go:141-162 | Every 64-bit word has at most eleven digits. |
| Base62.CanonicalOfValue | internal/publicid/publicid.go:164-182 | Re-encoding the value of a nonempty digit string gives that string without its leading zeros. |
| Base62.ReverseInPlace | internal/publicid/publicid.go:156-160 | The in-place swap loop reverses the array. |
| Base62.ToBase62 | internal/publicid/publicid.go:141-162 | The result is 1 to 11 alphabet characters of the number's value, without leading zeros. |
| Base62.FromBase62 | internal/publicid/publicid.go:164-182 | Accepts a string if and only if it is in the alphabet and its exact value is below 2^64; re-encoding strips leading zeros. |
| PublicId.Codec.Encode | internal/publicid/publicid.go:46-61 | Encoding refuses only the empty prefix. |
| PublicId.Codec.Decode | internal/publicid/publicid.go:65-88 | Decoding splits at the first underscore and checks format, prefix, digits and range in this order. |
| PublicId.RoundTrip | internal/publicid/publicid.go:46-88 | For all round keys, nonempty prefixes and int64 ids, decoding an encoded id gives it back if and only if the prefix has no underscore. |
| PublicId.KnownText | internal/publicid/publicid.go:46-61 | The public identifier of one id under one set of round keys, to the character. |
| PublicId.DecodeBySplit | internal/publicid/publicid.go:65-88 | With a and b the parts before and after the first underscore: a bad format exactly if one is empty, else a bad prefix exactly if a is not the expected one, else undecodable exactly if b has a foreign character or a value of 2^64 or more, else the id that encodes to that value. |
| PublicId.NoUnderscoreNoId | internal/publicid/publicid.go:66-69 | A text without an underscore has a bad format. |
| PublicId.OtherPrefixRejected | internal/publicid/publicid.go:71-73 | An id encoded for one resource is refused for every other. |
| PublicId.EncodingIsInjective | internal/publicid/publicid.go:46-61 | Different ids get different texts. |
| PublicId.AcceptedTextIsCanonical | internal/publicid/publicid.go:65-88 | An accepted text is the encoding of the id it decodes to, up to leading zeros of its digits. |
| Snowflake.SnowflakeGenerator.constructor | internal/idgen/idgen.go:33-38 | The node id is masked to ten bits, also when negative. |
| Snowflake.SpinPast | internal/idgen/idgen.go:53-56 | The spin loop returns the first reading past the last time, and terminates if there is one. |
| Snowflake.SnowflakeGenerator.NextID | internal/idgen/idgen.go:40-66 | For any clock readings the stamp strictly advances and follows the drift, sequence and spin rules; the id packs it. |
| Snowflake.FieldsRecoverable | internal/idgen/idgen.go:64 | Within 41 bits of the epoch, timestamp, node and sequence can be read back from the id. |
| Snowflake.LaterStampLargerId | internal/idgen/idgen.go:64 | Within that range, ids of one node order exactly as their stamps. |
| Snowflake.OrderBreaksExactlyAtOverflow | internal/idgen/idgen.go:64 | Over 42 bits of milliseconds, a later stamp gets a larger id if and only if the two do not lie on different sides of the 41st bit. |
| Snowflake.IdsStrictlyIncrease | internal/idgen/idgen.go:40-66 | Over any sequence of calls whose stamps advance, every later id is larger than every earlier one. |
| Snowflake.CollideExactlyWhen | internal/idgen/idgen.go:33-66 | Two generators issue the same id if and only if they share the masked node id and the stamp. |
| Snowflake.IssueIds | internal/idgen/idgen.go:40-66 | Successive calls return strictly increasing ids, whatever the clock does backwards, for as many calls as the current tick has sequence numbers left plus one per new high the clock still reaches. |
| Snowflake.FirstIds | cmd/api/main.go:58-124 | Two fresh generators start with the same id if and only if their masked node ids and the milliseconds they read are equal. |
| InvoiceTotal.DivisionTest | internal/invoice/invoice.go:257-261 | Dividing the wrapped product back differs from the quantity if and only if the exact product exceeds an int64. |
| InvoiceTotal.ComparisonTest | internal/invoice/invoice.go:263-267 | The wrapped sum is below the old total if and only if the exact sum exceeds an int64. |
| InvoiceTotal.ExplainedIsRejected | internal/invoice/invoice.go:236-269 | A list for which some error is justified is never a list that fits. |
| InvoiceTotal.NumbersStartAtOne | internal/invoice/invoice.go:242-261 | An error about the only item names item 1. |
| InvoiceTotal.ComputeTotal | internal/invoice/invoice.go:236-269 | The loop accepts exactly the nonempty lists of valid items whose exact sum is at most 2^63-1, returns that sum, and otherwise reports the first offence. |
| InvoiceItems.GroupByInvoice | internal/invoice/invoice.go:397-400 | The map-building loop gives each invoice its rows in the order of the batch. |
| InvoiceItems.BatchedListingSplits | internal/db/generate/queries.sql.go:363-365 | An invoice's rows within the batched query are a result of that invoice's own query. |
| InvoiceItems.ListingExists | internal/db/generate/queries.sql.go:332-334 | The item query always has a result, so statements about every listing are about some. |
| InvoiceItems.ListingsAgree | internal/db/generate/queries.sql.go:332-334 | The item query has one result: filter and id order determine it. |
| InvoiceItems.ItemsOfInvoices | internal/invoice/invoice.go:386-410 | The list endpoint gives each invoice exactly the item sequence its own query gives. |
| InvoiceItems.RecomputeLineTotals | internal/invoice/invoice.go:151-173 | Line totals recomputed with wrapping arithmetic are the exact ones whenever the stored lines fit. |
| Fingerprint.PreimageIsInjective | internal/payment/payment.go:69-72 | Different (invoice, token) pairs never have the same preimage, whatever the token contains. |
| Fingerprint.DecimalDenotes | internal/payment/payment.go:70 | The decimal rendering of a number denotes it, without leading zeros. |
| Fingerprint.KnownPreimage | internal/payment/payment.go:70 | The preimage for one negative id, to the character. |
| Text.TrimIsMiddle | internal/payment/payment.go:201-216 | Trimming takes blanks off both ends and nothing from the middle. |
| Text.TrimSpaceIs | internal/payment/payment.go:201-216 | A text without outer blanks is what is left of it between any blanks. |
| Text.AsciiBytes | internal/payment/payment.go:202 | A text has as many bytes as characters exactly if it is ASCII, and otherwise more. |
| Fingerprint.FingerprintIdentifies | internal/payment/payment.go:69-72 | Under a digest that separates the two preimages, fingerprints are equal exactly for the same invoice and token. |

## Left out

- Gin routing, JSON binding, middleware, logging, configuration, server start and shutdown: input and output plumbing. Runs of `Protocol` start from the decoded path id; the endpoint methods decode it.
- The PSP's HTTP transport and the mock PSP: only the contract of `internal/psp/psp.go:60` is kept, that a nil error means "succeeded" or "failed".
- The HTTP status codes and messages of error answers: the model keeps which error it is. The codes of settled payments (200, 402, 202) are kept.
- SHA-256, HMAC, webhook signatures and payload JSON: digests are arbitrary functions, and an outbox row holds the event's varying fields instead of its JSON text. Bodies hold internal ids where the service shows public ones.
- `idgen.Codec`: its content is the AES block cipher, and the API does not use it.
- Authentication, bootstrap, customers and businesses: simple lookups. Their foreign keys, and the currency, due date and timestamp columns, are not in the tables. Only the business scope of invoice reads is kept.
- Creating webhook endpoints only adds a row; `SetActive` stands for an operator's change of `is_active`, for which the service has no handler.
- Statement-level MVCC, deadlocks and lost connections: transactions are atomic, and such failures are a refused statement or a crash. The unlocked key read and the two halves of a void are separate steps.
- `SKIP LOCKED`: claims are atomic, so no two overlap; a due row that a concurrent statement holds locked is, in the code, left for the next claim.
- Separate worker and database clocks, and transactions that commit later than their `NOW()`: there is one clock, and each statement takes effect at its own time.
- The worker's polling ticker: `ProcessBatch` may be called at any time.
- DRAFT to OPEN and UNCOLLECTIBLE transitions, which the documentation describes and no code implements.
- The bytes of invalid UTF-8: strings are sequences of characters, with byte lengths where the code counts bytes; the base62 error names the offending character, not its byte.
- Endpoints.VoidInvoice: describes one request without interference, and leaves out the item listing of its answer.
- Database.Transaction.CreateInvoice: has no customer foreign key and no currency check, because customers are left out and the service always inserts USD.
- Endpoints.PayInvoice: describes one request without interference; interleavings are the runs of `Protocol`.
- Endpoints.CreateInvoiceEndpoint: starts after the currency, date and customer checks, and takes the item ids as given in increasing order, which `Snowflake.IssueIds` provides.
- Snowflake.IssueIds: covers one generator within 41 bits of its epoch, past which the order breaks (`Snowflake.OrderBreaksExactlyAtOverflow`), and calls that end; the mutex that serialises calls is represented by their order.
- DeliveryWorker.DeliveryTable.SelectDue: breaks ties between equal due times in any way, as the query does.
