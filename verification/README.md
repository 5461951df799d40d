# The ticket life cycle, modelled and proved

This project models what happens to a ticket from checkout to the door of the event-ticketing
platform, and proves what the code guarantees about it. Purchases go from pending to completed or
failed while any number of webhook deliveries, checkouts and inventory readers interleave over one
database and one Redis; tickets are minted, given signed tokens, and admitted by any number of
scanners; requests pass a sliding-window limiter; discovery filters become SQL; sales flow to live
dashboards and to an analytics server.

Run `dafny verify dfyconfig.toml` to check everything.

## How it is built

* **One history of atomic operations.** `Tables` holds the rows, the handful of atomic writes the
  services commit, and what every history of them keeps: `sold` equals the tickets of completed
  purchases and the ticket rows, a completed purchase has exactly its tickets, a failed one does not
  fit and never will.
* **Small steps over it.** `Webhook` is a transition system with one step per round trip: claim,
  lock the purchase row, lock the tier row, one insert per ticket, bump, mark, commit, invalidate,
  mark done, publish. Writes are private until the commit; row locks last until commit or rollback;
  any statement may fail; a process may die at any step; a commit may apply and still report an
  error. The Redis claim is answered arbitrarily. `Protocol` proves the invariant and that each
  commit is one atomic operation, `Guarantees` draws the conclusions for whole runs, `Progress`
  excludes deadlock and endless runs, `DeliveryOutcomes` traces every answer to its cause,
  `UndisturbedDelivery` says what a delivery brings about when it is let through, `Orders` ties every
  purchase row to what was asked, `PurchaseCap`, `CapUnderBurst` and `CapUnderWebhooks` treat the
  per-buyer cap (`WorstCase` builds the interleavings that attain its bounds),
  `InventoryCache` treats the read cache over the same runs, and `Claims` puts the real claim store and
  a clock under the deliveries. `Counterexamples` holds the runs that break what comments claim.
* **The same code as one caller sees it.** Where the source changes objects in place, a class does
  the same (`PaymentService.Service`, `ExpiringKeys.IdempotencyStore`, `Issuer.TicketIssuer`,
  `ExactlyOneEntry.Validator`, `RateLimit.Limiter`, `Hub.Registry`, `Hub.Aggregator`,
  `Analytics.Server`), each method tied to the functions the theorems are about.
* **The door.** `Door` interleaves scans and issuer runs with every other write; `ScanOutcomes` traces
  every outcome of a scan to its cause, `IssuerRuns` says when an issuer run succeeds,
  `ExactlyOneEntry` counts admissions.
* **The rest.** `RateLimit`, `DiscoveryFilter`, `DiscoveryBatch`, `Dashboard`, `Analytics`, and
  `SalesBound`, which joins analytics to the payment runs. `Sums` and `Options` are helpers.

## Where the code and its own comments differ

The model follows the code. In each case the input that breaks the claim and the exact limit of the
claim are proved.

* "So stale inventory is never served" (`internal/inventory/inventory.go:62-63`):
  `Counterexamples.StaleIsServed` is a run from start to a stale answer. Exactly when: every cached
  count of every run comes from one table read and is right if and only if no sale of its tier was
  committed since that read (`InventoryCache.CountIsFrom`); after a Del, whatever happened since the
  commit it follows, the count can be trusted until the next sale if and only if no reader holds a wrong
  one and the Del worked or was not needed (`InventoryCache.DelSufficesIff`; `SaleIsSeenIff` is the case
  of a Del right after its commit).
* "A previous delivery already handled it" (`internal/payment/payment.go:153`, answered at 163-165 when
  the claim key exists): `Counterexamples.TakenWhilePending` is a run in which it is answered for a
  purchase nobody processed, `Counterexamples.TakenByItself` one in which a delivery is answered by its
  own claim. Exactly when: for a purchase that is not completed the key is live if and only if some
  delivery was granted the claim less than 24 hours ago and nobody released it since; that delivery is in
  flight, died, failed to release, or sent its claim again (`Claims.FalseAnswerIff`). Without such a
  delivery the answer is true (`Claims.TakenMeansDone`, `Claims.TidyAnswersAreTrue`). The model calls
  this answer `ClaimTaken`; `AlreadyDone` read from the row is always true (`Guarantees.ExactlyOnce`).
* "Returns true to exactly one caller" (`internal/payment/idempotency.go:24-25`):
  `Counterexamples.GrantedTwice` grants a claim to two deliveries. An acquire is granted if and only if
  no write of its key is younger than 24 hours and unreleased (`ExpiringKeys.ClaimRunsOut`).
* "Admits a ticket exactly once" (`internal/ticket/validator.go:23`): the scan key lives 24 hours and
  the status `scanned` is not refused. `ExactlyOneEntry.AdmittedTwice` is a run that lets one ticket in
  twice, `ExactlyOneEntry.TurnedAwayByItself` one in which a lone scan is refused. A ticket is admitted
  again if and only if its key has run out (`ExactlyOneEntry.ScanTwice`), and the key is live if and only
  if some scan set it less than 24 hours ago (`Door.GateClosedIff`). Admissions are at least 24 hours
  apart (`Door.AdmissionsAreSpaced`).
* "confirms the ticket exists and is valid" (`internal/ticket/validator.go:50`): the status read and the
  update that marks the ticket are two statements, and the update does not look for a refund.
  `ExactlyOneEntry.RefundIsOverwritten` is a run in which a refund between the two is overwritten. A refund
  that no scan overlaps lasts and keeps the ticket out (`ScanOutcomes.RefundedStaysOut`). Nothing in the
  repository writes the status `refunded`; the model lets anybody write it at any time.
* "Prevent a single buyer from hoarding" (`internal/payment/payment.go:107`): the check and the insert
  are two statements; `Counterexamples.CapPassed` brings a buyer to 12 of 10. Exactly when overlapping
  checkouts cannot pass the cap, whatever webhooks, other buyers and dying processes do between them:
  `CapUnderWebhooks.CapSafeIff`. `SafeIfCompletedFit` is a simpler test, `CapUnderBurst.BurstSafeIff` the
  condition when nobody else moves, and `PurchaseCap.CapHolds` covers checkouts that do not overlap.
* "Generate signed QR tokens for the freshly minted tickets" (`internal/payment/payment.go:177`) is a
  step of its own: `Counterexamples.CompletedWithoutToken` dies before it. No later delivery makes up
  for it (`Guarantees.NoLaterIssue`); a ticket gets its token if and only if some issuer run stores it
  (`Door.TokenIff`), so a purchase nobody issues again stays without (`Door.NoIssuerNoToken`).
* "Updates running totals in Redis and broadcasts a snapshot" (`internal/dashboard/aggregator.go:48`):
  the errors of the two increments are discarded and read as 0, and an increment whose reply is lost is
  sent again. `Dashboard.LossUnderstates` and `Dashboard.RepetitionOverstates` are runs with untrue
  snapshots. A snapshot's `sold` is true if and only if its own increment was answered and the losses so
  far make up for the repetitions (`Dashboard.SoldIsTrueIff`, `Dashboard.RevenueIsTrueIff`); without
  repetitions, if and only if nothing was lost (`Dashboard.SoldIsTrueIffOnce`).
* An event without a time is meant to be dated by the server (`internal/analytics/server.go:63-66`), but
  an absent timestamp reads as 1970 and only the zero time of year 1 gives way to the server's clock. When
  all times given are later, an event's first time is 1970 if and only if some message of it carries no
  time (`Analytics.UndatedPullsBackIff`).
* "Admits at most `limit` events" (`internal/ratelimit/ratelimit.go:35`) holds, and no other limiter that
  keeps the bound admits more, except when limit is 0 and the window is empty (`RateLimit.OptimalIff`,
  which contains the input).

The Redis client is used with its default options (`internal/cache/cache.go:14`), so it sends a command
again when the reply is lost. The claim, the scan gate, the two dashboard counters and the reader's fill
are modelled with such repetitions.

## Model

| member | source | states |
|---|---|---|
| Tables.OpKeepsInv | migrations/0001_init.sql:47-83 | Every write the services commit keeps the tables consistent: `sold` is the sum over completed purchases and the count of ticket rows and fits the capacity, completed purchases have exactly their tickets, failed ones do not fit, intents and ticket ids are unique |
| Tables.MintConserves | internal/payment/payment.go:239-255 | Minting a purchase that fits raises `sold`, the completed quantities and the ticket rows of its tier, and of no other, by the same amount, within capacity |
| Tables.MintIsExact | internal/payment/payment.go:239-255 | After minting, each purchase has its quantity of ticket rows if completed and none otherwise |
| Tables.RefuseKeeps | internal/payment/payment.go:229-237 | Marking a purchase failed because it does not fit keeps every promise of the tables |
| Tables.OpMovesForward | internal/payment/payment.go:216-255 | No write lowers `sold`, changes a capacity or a price, changes a settled purchase, or loses a ticket or a stored token |
| Tables.HistorySafe | internal/payment/payment.go:4-9 | Any history of legal atomic writes keeps all of the above from its first state to its last |
| Protocol.FailCommitIsAtomic | internal/payment/payment.go:229-237 | Under the two row locks, committing the private `failed` version equals the one-step decision on the tables as they are at the commit |
| Protocol.MintCommitIsAtomic | internal/payment/payment.go:239-259 | Under the two row locks, committing the inserted tickets, the bumped tier and the completed row equals the one-step decision on the tables as they are at the commit |
| Protocol.StepRefines | internal/payment/payment.go:194-274 | Each step of any actor changes the committed tables by exactly one legal atomic operation, or not at all |
| Protocol.DeliverKeepsWinner | internal/payment/payment.go:216-219 | No two deliveries ever both see their own minting commit succeed for one purchase |
| Protocol.StepKeepsInv | internal/payment/payment.go:160-274 | Every step of every actor, with any reply, keeps the tables consistent, locks matched to open transactions, private writes matched to executed statements, pending ticket ids apart, and one winner per purchase |
| Guarantees.Reachable | internal/payment/payment.go:4-9 | The invariant holds in every state of every run |
| Guarantees.Serializable | internal/payment/payment.go:194-274 | The committed tables at the end of any run equal the replay, in commit order, of one atomic operation per commit |
| Guarantees.ExactlyOnce | internal/payment/payment.go:157-192 | Whatever Redis answers and however commits are acknowledged: a delivery that reports `Created` has its purchase completed with exactly the reported number of tickets, no other delivery of the intent mints, and "already done" read from the row is true |
| Guarantees.TicketsMatchPurchase | internal/payment/payment.go:239-255 | In every reachable committed state a purchase has its quantity of tickets if completed and none otherwise |
| Guarantees.NeverOversold | migrations/0001_init.sql:52-55 | In every reachable state `sold` equals the completed quantities and the ticket rows and lies in 0..capacity, and every version about to be committed satisfies the table's checks too |
| Guarantees.RemainingIsLeft | internal/inventory/inventory.go:53-56 | In every reachable state what a reader computes as remaining and what is sold make up the tier's capacity |
| Guarantees.FailedIsFinal | internal/payment/payment.go:216-237 | A purchase once failed is failed in every later state and still exceeds its tier's capacity |
| Guarantees.PublishedOnce | internal/payment/payment.go:176-190 | Every published purchase is completed and no purchase is published twice |
| Guarantees.RunMovesForward | internal/payment/payment.go:248-254 | Along any run the committed tables only evolve forward |
| Guarantees.NoLaterIssue | internal/payment/payment.go:176-182 | Once a completed purchase has no delivery on its way to issue it, no later delivery of any intent ever issues its tokens |
| Orders.RowWasAsked | internal/payment/payment.go:90-136 | In any run, every purchase row added is for a buyer, a tier and a quantity that somebody asked for, 1 when none was asked, and its amount is the tier's price times that quantity |
| Orders.BoughtIsThere | internal/payment/payment.go:130-148 | Whoever is told the id of his purchase finds under it, in every later state too, the row he asked for with his intent |
| UndisturbedDelivery.AnswersForTheTables | internal/payment/payment.go:160-274 | While nobody else moves and the transaction is answered, whatever becomes of the claim call and of the calls after the commit, a finished delivery has given the answer the tables it found call for, and the open purchase is settled by one atomic decision |
| UndisturbedDelivery.EffectsFollow | internal/payment/payment.go:166-190 | If besides the claim no call errs, the tier's cached count is dropped and the purchase published exactly when the delivery minted it |
| UndisturbedDelivery.DeliversAlone | internal/payment/payment.go:160-192 | From any reachable state with nothing in flight a delivery whose claim is granted, errs, or loses its reply can be answered to its end, with that answer, that settlement and those effects |
| DeliveryOutcomes.RefusedBecause | internal/payment/payment.go:160-237 | In any run a delivery reports a taken claim, an unknown purchase, sold out, or an error only after a step of its own at which the key was there, the table had no such purchase, the purchase did not fit and was marked failed, or a call of its transaction failed |
| DeliveryOutcomes.PublishedIff | internal/payment/payment.go:183-189 | In any run a purchase is in the publication log if and only if some delivery has made the publishing call for it and the call took effect |
| DeliveryOutcomes.CreatedCalledPublish | internal/payment/payment.go:176-191 | A delivery that reports `Created` has made the publishing call; its purchase is in the log unless that call failed |
| Progress.BlockerIsCloser | internal/payment/payment.go:201-228 | Whoever holds the lock a delivery waits for is unfinished and has strictly fewer locks left to wait for |
| Progress.NoDeadlock | internal/payment/payment.go:201-228 | In every reachable state with an unfinished delivery, some delivery can take its next step successfully |
| Progress.StepDescends | internal/payment/payment.go:160-274 | Every step of a delivery, successful or not, lowers the total number of steps the deliveries have left |
| Progress.RunsAreBounded | internal/payment/payment.go:160-274 | Once only deliveries move, a run goes on for at most the total it started with |
| Progress.MaximalRunsFinish | internal/payment/payment.go:160-274 | A run in which no delivery can step successfully has ended every delivery |
| PurchaseCap.SettleHeld | internal/payment/payment.go:216-255 | Settling never raises what a buyer holds for an event, because failed purchases do not come back |
| PurchaseCap.HeldIsPendingAndCompleted | internal/payment/payment.go:109-115 | What a buyer holds for an event is the sum over his pending purchases plus the sum over his completed ones |
| PurchaseCap.CapHolds | internal/payment/payment.go:107-118 | With no two checkouts of one buyer for one event between check and insert, pending plus completed quantities never exceed the cap, under any interleaving with webhooks |
| CapUnderBurst.BurstReaches | internal/payment/payment.go:109-136 | No interleaving of overlapping checkouts, while nobody else moves, brings a buyer above what is held plus everything past its check or passing it alone |
| CapUnderBurst.CheckThenInsert | internal/payment/payment.go:109-136 | Some interleaving, all checks before all inserts, brings the buyer exactly there |
| CapUnderBurst.InsertWaiting | internal/payment/payment.go:120-136 | Checkouts past their check can all insert, whatever the table holds by then |
| CapUnderBurst.BurstSafeIff | internal/payment/payment.go:109-136 | While nobody else moves, all interleavings of overlapping checkouts stay within the cap if and only if what is held, what is past its check and what passes it alone fit together |
| CapUnderWebhooks.PlayReaches | internal/payment/payment.go:90-136 | Whatever deliveries, other buyers and everybody else do among them, a buyer's overlapping checkouts bring him at most to the worst case for those of his pending purchases that failed meanwhile |
| WorstCase.FailAll | internal/payment/payment.go:216-237 | From any reachable state some continuation makes any given pending purchases fail and leaves the buyer's other purchases and checkouts as they are |
| CapUnderWebhooks.WorstIsReached | internal/payment/payment.go:90-136 | For any choice of pending purchases some continuation makes them fail and brings the buyer exactly to the worst case |
| CapUnderWebhooks.CapSafeIff | internal/payment/payment.go:107-136 | Under any further steps of webhooks, other buyers and dying processes the buyer's overlapping checkouts stay within the cap if and only if, for every set of his pending purchases that may fail, what is then held, what is past its check and what then passes it alone fit together |
| CapUnderWebhooks.SafeIfCompletedFit | internal/payment/payment.go:107-136 | They do if what is held now fits together with what is past its check or would pass it over the completed purchases alone |
| InventoryCache.MonotoneLag | internal/inventory/inventory.go:36-66 | Whatever races happen, a cached or served count was the true count of an earlier committed state of the run and is never below the current one |
| InventoryCache.ExactWhenSettled | internal/inventory/inventory.go:62-66 | If no fill straddles a commit of its tier and invalidations work, a cached count is exact whenever no commit of its tier awaits its Del |
| InventoryCache.StraddlingFillIsStale | internal/inventory/inventory.go:43-59 | A fill read before a commit and written after its Del leaves a count too high by exactly the quantity of that sale |
| InventoryCache.ExactForGoodIff | internal/inventory/inventory.go:36-66 | Under any further steps of readers, deliveries and everybody else without a committed sale of the tier its cached count stays right if and only if it is right and no reader holds a wrong one |
| InventoryCache.SaleIsSeenIff | internal/payment/payment.go:257-262 | After a committed sale and, right after it, its Del, whatever the Del's reply, the count can be trusted until the next sale if and only if nobody was filling it at the commit and the Del worked or had nothing to delete |
| InventoryCache.DelSufficesIff | internal/payment/payment.go:261-262 | After a Del, whatever happened since the commit it follows, the count can be trusted until the next sale if and only if no reader holds a wrong one and the Del worked or the count was right |
| InventoryCache.NeverBelow | internal/inventory/inventory.go:53-59 | In every reachable state no cached count and no count on its way to the cache is below the true one |
| InventoryCache.CountIsFrom | internal/inventory/inventory.go:36-60 | In every run each cached count was read at one step and cached at another, is too high by exactly what was sold since it was read, and is right if and only if no sale of the tier was committed since |
| Counterexamples.StaleIsServed | internal/inventory/inventory.go:62-63 | A run from a consistent start in which a reader is told from the cache that a seat is left when none is |
| Counterexamples.CompletedWithoutToken | internal/payment/payment.go:176-182 | A run that ends with the purchase completed, its ticket without a token and the delivery dead |
| Counterexamples.TakenWhilePending | internal/payment/payment.go:160-165 | A run with a truthful store in which "already done" is answered for a pending purchase |
| Counterexamples.TakenByItself | internal/payment/payment.go:162-165 | A run in which a lone delivery is told "already done" by its own claim, sent again after a lost reply |
| Counterexamples.GrantedTwice | internal/payment/idempotency.go:24-28 | A run in which two deliveries are granted the claim of one intent |
| Counterexamples.CapPassed | internal/payment/payment.go:107-136 | A run in which two checkouts of 6 bring a buyer to 12 with a cap of 10 |
| Claims.StepKeepsInv | internal/payment/payment.go:160-174 | Every step, a call sent again included, keeps store, deliveries and tables together: only completed purchases are marked done, and whoever was granted a claim and ended without success released it, could not, or asked again |
| Claims.FalseAnswerIff | internal/payment/payment.go:160-174 | For a purchase that is not completed the claim key is live if and only if a delivery was granted it less than 24 hours ago and nobody released it since; that delivery is in flight, died, failed to release, or sent its claim again |
| Claims.TakenMeansDone | internal/payment/payment.go:157-165 | With no delivery of the intent in flight, dead, unable to release or asking again, the answer "already done" from the store means the purchase is completed |
| Claims.TidyAnswersAreTrue | internal/payment/payment.go:157-174 | In a run where deliveries of an intent come one after the other, none dies, every release reaches the store and no claim is sent again, "already done" is only answered for a completed purchase |
| Claims.KeyAnswersADay | internal/payment/idempotency.go:24-34 | A delivery that is granted its claim or marks it done keeps the intent's key live for 24 hours, whatever else is called, unless a delivery of the intent releases it |
| Claims.ReleaseFrees | internal/payment/idempotency.go:36-39 | A release that reaches the store leaves the intent free to be claimed at once |
| PaymentService.Service.Checkout | internal/payment/payment.go:90-148 | Succeeds exactly when the order is acceptable and every statement is answered; appends the pending row for the buyer, the tier, its event, the quantity asked (1 when none is) and the tier's price times that quantity, leaving the buyer within the cap, exactly when the insert takes effect; otherwise changes nothing |
| PaymentService.Service.InsertTickets | internal/payment/payment.go:239-246 | The mint loop succeeds if and only if as many statements get through as there are tickets and the ids drawn for them are new; it then yields one ticket per unit |
| PaymentService.Service.Refuse | internal/payment/payment.go:229-237 | Answers sold out if and only if its statements get through and the commit is acknowledged; the tables change by the whole atomic decision exactly when the commit takes effect |
| PaymentService.Service.MintAll | internal/payment/payment.go:239-273 | Reports `Created` with the quantity if and only if every statement gets through with new ids and the commit is acknowledged; the tables change by the whole atomic decision exactly when the commit takes effect; the cached count is dropped exactly on `Created` |
| PaymentService.Service.ProcessInTx | internal/payment/payment.go:194-274 | Each answer is honest about the tables; it is an error if and only if a statement the tables call for does not get through or the commit is not acknowledged, and then the open purchase is settled exactly if the commit took effect |
| PaymentService.Service.ProcessPaymentSucceeded | internal/payment/payment.go:160-192 | Answers from the claim exactly when a live claim exists or its own claim was sent again; otherwise, with or without the store, the transaction runs: the answer is an error exactly when the database fails it, and else `Created` with the quantity for an open purchase that fits, sold out for one that does not, already done for a completed one, not found for none; failures free the intent and other answers leave it marked done if the last call takes effect; only `Created` drops the cached count and is published |
| PaymentService.AnswersKeep | internal/payment/payment.go:194-274 | Any honest answer leaves consistent tables that are later than those it found |
| PaymentService.SecondCallDoesNothing | internal/payment/payment.go:157-159 | After a `Created`, and after any later writes, another delivery of the intent changes nothing and cannot report `Created` |
| ExpiringKeys.ClaimIsExclusive | internal/payment/idempotency.go:24-39 | Between a granted claim and the next grant of the same intent there is a release or a full time to live |
| ExpiringKeys.ClaimRunsOut | internal/payment/idempotency.go:24-39 | After any calls at all an acquire is granted if and only if no write of its key is younger than the time to live and unreleased |
| ExpiringKeys.LiveIff | internal/payment/idempotency.go:24-39 | After any sequence of acquire, mark-done and release calls from an empty store a key is live if and only if some granted acquire or mark-done of it is younger than the time to live with no release after it |
| ExpiringKeys.IdempotencyStore.TryAcquire | internal/payment/idempotency.go:24-28 | Grants exactly when no live key exists, and then sets it to `processing` for 24 hours |
| Token.LastDot | internal/ticket/token.go:35 | The index found is a dot with no dot after it, or -1 if there is none |
| Token.Signer.VerifyExact | internal/ticket/token.go:33-45 | With proper signature texts, a token verifies to an id if and only if the id is non-empty and the token is that id's own |
| Token.Signer.AcceptedIsToken | internal/ticket/token.go:33-45 | Whatever verifies to an id is that id's own token, for any signature function |
| Token.Signer.TokenInjective | internal/ticket/token.go:28-31 | Different ids have different tokens, also when ids contain dots |
| Token.Signer.RoundTripNeeds | internal/ticket/token.go:28-45 | The round trip holds for a non-empty id if and only if its signature text is non-empty and dot-free |
| Issuer.TokensDistinct | internal/ticket/issuer.go:54-59 | Tickets holding their own tokens never share one |
| Issuer.TicketIssuer.Select | internal/ticket/issuer.go:31-48 | Collects the ids of exactly the purchase's tickets that lack a token, each once |
| Issuer.TicketIssuer.IssueForPurchase | internal/ticket/issuer.go:27-68 | Stores own tokens in tickets of the purchase that lack one and touches nothing else, one per statement that gets through; succeeds if and only if there are statements enough for the select and every missing token, and then none is missing |
| Door.StepKeepsSpacing | internal/ticket/validator.go:71-78 | A scan that wins the gate does so at least a time to live after every earlier winner of the same ticket |
| Door.StepKeepsInv | internal/ticket/validator.go:52-86 | Every step of scans, issuer runs and other writes keeps the tables consistent, every winner covered by its gate key, winners of one ticket apart, and issuer runs complete so far |
| Door.AdmissionsAreSpaced | internal/ticket/validator.go:71-78 | In any run, two admissions of one ticket are at least 24 hours apart |
| Door.TokensAreOwn | internal/ticket/issuer.go:27-30 | After any sequence of whole, partial or overlapping issuer runs each stored token is its ticket's own and no two are equal |
| Door.AdmittedWasSold | internal/ticket/validator.go:58-78 | The ticket of an admitted scan is in the table, minted by a completed purchase of its tier |
| Door.EntryIsBounded | internal/ticket/validator.go:58-78 | The distinct tickets admitted for a tier never outnumber its `sold`, hence its capacity |
| Door.NoneMintedLater | internal/payment/payment.go:216-246 | All tickets of a purchase exist as soon as it is completed |
| Door.SuccessLeavesNoGap | internal/ticket/issuer.go:27-68 | A run that starts on a completed purchase and succeeds leaves every ticket of it with its own token, whatever overlapped it |
| Door.TokenIff | internal/ticket/issuer.go:54-59 | A ticket without a token has one at a later state if and only if some issuer run's store of it took effect in between |
| Door.NoIssuerNoToken | internal/ticket/issuer.go:27-32 | While no issuer run for its purchase exists a ticket keeps having no token |
| Door.GateClosedIff | internal/ticket/validator.go:71-78 | From no keys at all, in any run a ticket's scan key is live if and only if some scan set it less than 24 hours ago |
| ScanOutcomes.DecodeIff | internal/ticket/validator.go:53-56 | In any run a scan goes on with an id if and only if its token is that non-empty id's own, and ends as invalid if and only if it is nobody's |
| ScanOutcomes.StatusReadIff | internal/ticket/validator.go:58-69 | In any run an answered status read comes to the gate if and only if the ticket is in the table and not refunded; otherwise the scan ends as not found |
| ScanOutcomes.GateIff | internal/ticket/validator.go:71-78 | In any run an answered gate request wins if and only if the ticket's key is not live; otherwise the scan ends as already scanned |
| ScanOutcomes.PastReadWasAdmissible | internal/ticket/validator.go:58-78 | A scan at the gate, past it, or turned away there had its status read answered at an earlier step, when the ticket was in the table and not refunded |
| ScanOutcomes.AdmittedBecause | internal/ticket/validator.go:58-86 | An admitted scan was answered by the gate at the time of its admission, with no live key, after an answered status read that found the ticket unrefunded |
| ScanOutcomes.RefusedBecause | internal/ticket/validator.go:52-78 | Each refusal has its cause in the run: a token that does not verify, a ticket absent or refunded when read, a live key at the gate |
| ScanOutcomes.RecordMarks | internal/ticket/validator.go:80-85 | An admission stands whether or not it is recorded; the record marks exactly the scan's ticket, exactly if it takes effect |
| ScanOutcomes.RefundedStaysOut | internal/ticket/validator.go:67-83 | A refunded ticket that no scan has between its status read and its record stays refunded and is admitted to nobody in any later state |
| IssuerRuns.StoppedBecause | internal/ticket/issuer.go:27-68 | An issuer run that ends without success had a round trip of its own that was not answered |
| IssuerRuns.AnsweredToItsEnd | internal/ticket/issuer.go:27-68 | From any reachable state a run that has not failed can be answered to a successful end in one select and one store for each missing token |
| ExactlyOneEntry.ExactlyOneAdmitted | internal/ticket/validator.go:23-29 | Of K finished scans of one valid token, none of which died or met an error up to the gate or sent its gate request again, without refund or expiry and with no key at the start, exactly one is admitted and K - 1 are told it was scanned, whatever else interleaves |
| ExactlyOneEntry.AdmittedTwice | internal/ticket/validator.go:67-78 | A run that lets one ticket in twice, 24 hours apart |
| ExactlyOneEntry.TurnedAwayByItself | internal/ticket/validator.go:71-78 | A run in which a lone scan is told its ticket was scanned, by its own gate request sent again |
| ExactlyOneEntry.RefundIsOverwritten | internal/ticket/validator.go:67-83 | A run in which a ticket refunded after its scan's status read is let in and its row turned from refunded to scanned |
| ExactlyOneEntry.Validator.Validate | internal/ticket/validator.go:50-86 | Admits exactly a known unrefunded ticket with a valid token and no live key when all answers come; each refusal and each error has its exact cause; the key is set exactly when the claim takes effect, the ticket marked only after an admission |
| ExactlyOneEntry.ScanTwice | internal/ticket/validator.go:67-83 | Of two scans of one ticket in a row, the first admitted, the second is admitted if and only if 24 hours have passed, whether or not the scan was recorded |
| RateLimit.EveryWindowBounded | internal/ratelimit/ratelimit.go:35 | At every instant at most `limit` admissions lie in the window that ends there |
| RateLimit.RefusalCatchesUp | internal/ratelimit/ratelimit.go:25-32 | When the limiter refuses what another bounded selection takes, that selection was strictly behind |
| RateLimit.GreedyIsOptimal | internal/ratelimit/ratelimit.go:25-32 | After every prefix of the arrivals the limiter has admitted at least as many as any selection that respects the bound |
| RateLimit.OptimalIff | internal/ratelimit/ratelimit.go:25-32 | It is optimal for all arrivals if and only if the window is positive or the limit is not 0 |
| RateLimit.CountIsHistory | internal/ratelimit/ratelimit.go:25-26 | The size of the trimmed set, with an expired key dropped or not, is the number of admissions of the whole history in the window |
| RateLimit.CallTracks | internal/ratelimit/ratelimit.go:25-32 | One call decides as the whole history would and leaves a set that again stands for the history |
| RateLimit.Script | internal/ratelimit/ratelimit.go:18-33 | The script's decision is that of counting the whole history |
| RateLimit.Limiter.Allow | internal/ratelimit/ratelimit.go:49-61 | Over any sequence of calls the admissions are exactly those of the specification |
| DiscoveryFilter.WhereIgnoresLaterArgs | internal/discovery/store.go:23-26 | Later arguments never change what earlier placeholders mean |
| DiscoveryFilter.Narrow | internal/discovery/store.go:43-59 | Appending one condition with its argument narrows the kept rows by exactly that bound, NULL columns excluded |
| DiscoveryFilter.NarrowNear | internal/discovery/store.go:34-41 | The two geo conditions with three new placeholders keep exactly the located rows within the radius |
| DiscoveryFilter.AppendDates | internal/discovery/store.go:44-52 | The category and date conditions extend the honoured part of the filter by those bounds |
| DiscoveryFilter.AppendPrices | internal/discovery/store.go:53-58 | The price conditions complete it |
| DiscoveryFilter.QueryEvents | internal/discovery/store.go:18-59 | For every filter the clause never fails and is true of exactly the published rows that have and satisfy every supplied bound; every placeholder has an argument and every argument is used |
| DiscoveryBatch.BatchKeepsEach | internal/discovery/store.go:125-127 | The batch query holds, per asked event, exactly what its own query returns, and nothing of other events |
| DiscoveryBatch.ListInPriceOrder | internal/event/event.go:142-160 | Tiers listed from a price-ordered table are in price order |
| DiscoveryBatch.ListShows | internal/event/event.go:142-160 | The list shows, in the table's order, exactly the rows of the event, each with its id, name, price, capacity and sold, and with remaining plus sold equal to the capacity |
| DiscoveryBatch.IndexById | internal/discovery/store.go:118-123 | The index maps exactly the ids of the events to their events |
| DiscoveryBatch.Distribute | internal/discovery/store.go:132-144 | One pass appends to each event views of exactly its own rows, in order, each with the fields of its row and remaining plus sold equal to the capacity |
| DiscoveryBatch.AttachTiers | internal/discovery/store.go:112-146 | Each event gets exactly what a query of its own would return: views of exactly its rows of the whole table, in the table's order, each with the fields of its row and remaining plus sold equal to the capacity |
| Dashboard.HearKeeps | internal/dashboard/hub.go:51-60 | A broadcast, queued or dropped, keeps a client's sequence an ordered selection of its event's true snapshots |
| Dashboard.BroadcastIsTrue | internal/dashboard/aggregator.go:54-68 | A broadcast tells the true totals of the sales consumed so far if and only if its increments were answered and lost increments of the event make up for repeated ones |
| Dashboard.SoldIsTrueIff | internal/dashboard/aggregator.go:54-56 | A snapshot's `sold`, if answered, is the true total plus what was repeated less what was lost; it is true if and only if it was answered and these cancel |
| Dashboard.SoldIsTrueIffOnce | internal/dashboard/aggregator.go:54-56 | With no increment applied more than once, `sold` never overstates and is true if and only if it was answered and no increment of the event was lost |
| Dashboard.RevenueIsTrueIff | internal/dashboard/aggregator.go:54-56 | A snapshot's revenue, if answered, is the true total plus what was repeated less what was lost; it is true if and only if these cancel, or, unanswered, if there is no revenue |
| Dashboard.StepKeeps | internal/dashboard/hub.go:26-60 | Registering, leaving, receiving and broadcasting keep every client's sequence true and ordered and its queue within 64 |
| Dashboard.ClientSees | internal/dashboard/aggregator.go:48-72 | What a client has received and queued is an ordered subsequence of its event's snapshots since it registered, with `sold` strictly rising among the answered ones, complete if nothing was dropped |
| Dashboard.ClientSeesTruthIff | internal/dashboard/aggregator.go:48-72 | A `sold` a client sees is true if and only if it was answered and losses make up for repetitions; without repetitions it never overstates and is true if and only if nothing was lost |
| Dashboard.WatchesUntilLeaving | internal/dashboard/hub.go:26-35 | From its registration until it leaves a client is a member of its event's group with an open channel |
| Dashboard.HearsNothingMore | internal/dashboard/hub.go:37-47 | A client that has left has a closed channel and hears nothing more; what it had queued it can still receive |
| Dashboard.LossUnderstates | internal/dashboard/aggregator.go:54-56 | A run whose second snapshot, fully answered, tells 1 sold of 2 and the true revenue of 200 |
| Dashboard.RepetitionOverstates | internal/dashboard/aggregator.go:54-56 | A run whose snapshot, fully answered, tells 2 sold of 1 and the true revenue of 100 |
| Dashboard.DropsOnlyWhenFull | internal/dashboard/hub.go:49-60 | A snapshot is dropped for exactly the registered clients of the event with 64 queued, and nothing is sent to a closed channel |
| Hub.Registry.Register | internal/dashboard/hub.go:26-35 | Adds the client to its event's watchers and to no other |
| Hub.Registry.Unregister | internal/dashboard/hub.go:37-47 | Removes the client everywhere, leaves no empty group, and closes its channel when nobody can send to it any more |
| Hub.Registry.Broadcast | internal/dashboard/hub.go:49-60 | Offers the message to every watcher of the event, in any order, and to nobody else |
| Hub.Aggregator.OnPurchase | internal/dashboard/aggregator.go:48-72 | Adds the sale to each of its event's two totals as often as its increment is applied, and offers the answered totals, 0 for an unanswered one, to the event's watchers |
| Analytics.FoldMeans | internal/analytics/server.go:68-82 | An event has an entry exactly when it occurred, holding the sums and the first and last times of its events |
| Analytics.OrderIndependent | internal/analytics/server.go:62-83 | The aggregate depends only on the multiset of applied events |
| Analytics.StreamsAggregate | internal/analytics/server.go:41-95 | In any interleaving of streams the table is the aggregate of the applied events in any order, and an acknowledged total lies between what its stream received and what was applied |
| Analytics.Server.ApplyEvent | internal/analytics/server.go:62-85 | Raises the revenue of the message's event by its amount and the tickets by its quantity, from 0 for a new event, extends the first and last times by its time, leaves the other events alone and counts the message; an absent time is 1970, and only the zero time of year 1 gives way to the server's clock |
| Analytics.UndatedPullsBackIff | internal/analytics/server.go:63-78 | When all times given are after 1970, an event's first time is 1970 if and only if some message of it carries no time |
| Analytics.FoldAdds | internal/analytics/server.go:41-85 | Messages folded onto earlier events add to each event the sums of amount and of quantity over its own messages |
| Analytics.Server.RecordStream | internal/analytics/server.go:41-60 | Every event's revenue and tickets are those before plus the sums of amount and of quantity over the messages received for it, whether the stream ends or breaks off; only the one that ends is acknowledged, with the running total |
| Analytics.Server.GetStats | internal/analytics/server.go:97-112 | Answers with the sums over the events folded in, 0 for an unknown event |
| SalesBound.PickedAtMostAll | internal/payment/payment.go:185-189 | Distinct purchases weigh no more together than the whole table |
| SalesBound.AnalyticsBounded | internal/payment/payment.go:183-189 | In every reachable state, whatever part of the published purchases analytics has applied, its tickets and revenue for an event never exceed those of the event's completed purchases |

## Left out

- Service.ProcessPaymentSucceeded: one caller at a time, without the issuer call and without dying between claim and conclusion; interleavings and deaths are in `Webhook` and `Claims`, issuer runs in `Door`; Redis may answer its two calls differently.
- Service.Checkout: other checkouts running at the same time are in `Webhook`, `PurchaseCap`, `CapUnderBurst` and `CapUnderWebhooks`, not in the class.
- BurstSafeIff: bursts without webhook steps; `CapSafeIff` has them.
- BurstReaches: bursts without webhook steps; `PlayReaches` has them.
- CapSafeIff: assumes that the provider hands out every intent once, and counts as a step anything the environment can do, the deaths of processes and purchases of strangers included.
- Validator.Validate: `scanned_at` is not kept.
- ScanTwice: nothing happens between the two scans; arbitrary interleavings are in `Door.GateClosedIff` and `Door.AdmissionsAreSpaced`.
- Limiter.Allow: assumes that calls reach Redis in the order of their times, that key expiry follows the same clock, and that the random member is new; in the source the time is read before the script runs and expiry is on Redis's own clock, so even two calls of one process may break the order. A Redis error, or the script being sent again, is not modelled.
- ExactWhenSettled: one direction; `CountIsFrom` and `DelSufficesIff` are the exact conditions.
- SaleIsSeenIff: nothing happens between the commit and its Del; `DelSufficesIff` is stated at the Del.
- ExactlyOnce: in `Webhook` issuing is a single step without effect on the tables; what issuer runs do is in `Door`.
- AnswersForTheTables: nobody else moves while the delivery is under way; what holds when others do is in `Guarantees` and `DeliveryOutcomes`.
- DeliversAlone: begins with no other delivery in flight; `Progress.NoDeadlock` and `Progress.MaximalRunsFinish` have the rest.
- OnPurchase: first-seen time, velocity and per-tier figures are left out.
- Server.ApplyEvent: the Redis mirror of the totals is left out.
- Server.GetStats: the velocity figure is left out.
- The Redis claim in `Webhook`: SETNX is answered arbitrarily there, which covers every real behaviour; `Claims` has the real store, starting without keys.
- A change of the purchase cap while checkouts run: the cap is fixed during a run.
- Locks other than the two `FOR UPDATE` row locks: foreign-key share locks and a unique-index wait of the checkout insert are not modelled.
- Row deletion, and random ids of purchases and tiers: a row's position is its id; ticket ids are strings, assumed unused when drawn.
- Rollback after a crash is one step; how long Postgres takes to notice a dead client is not modelled.
- HMAC-SHA256 and base64url: an uninterpreted function from ids to texts; nothing is claimed about forging. PNG files, logging and the email stub are left out.
- SQL text: conditions are a datatype with numbered placeholders; PostGIS distance is an uninterpreted predicate; ordering, trending scores and LIMIT are left out.
- Event lists with repeated ids in the batch loader: event ids are primary keys.
- Sales velocity, per-tier dashboard figures, JSON and WebSocket framing.
- Kafka and gRPC transport: dashboard totals are stated over consumed sales, and the bound on analytics over events applied at most once each.
- Fixed-width overflow: quantities, prices, totals and times are mathematical integers.
- HTTP handlers, authentication, configuration, migrations, the multi-publisher and the rate-limit middleware: short code without a hard property.
