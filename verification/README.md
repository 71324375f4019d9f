# payd money core: a Dafny model

The backend of payd watches a TRON chain, keeps a ledger of payments to its own addresses, settles merchant orders,
notifies merchants in order, and sends withdrawals. All of it is driven by SQLite transactions that several workers
interleave, over a chain that reorganises, with processes that crash. This project models those transactions and
workers and proves what they are for.

The `normal` database handle has one connection, so transactions are atomic steps. Each ledger transaction is a
function on the tables (`Ledger`, `Payouts`, `Outbox`); `None` is a rollback. The source's imperative code is modelled
as classes and loops proved against those functions: `Transactions.Tx` is an open transaction, `Store.Store` the
committed tables, `FollowerWorker.Worker` the chain follower, `Dispatching.Queue` and `Dispatching.Dispatcher` the
outbox, `PayoutStore.PayoutStore`, `EngineSession.Session` and `WithdrawalEngine.Engine` the withdrawal engine,
`Totp.Server` the one-time passwords. A state read by one statement and written by the next inside one transaction is
a local value that is assigned back at the commit.

Answers from outside (blocks, receipts, broadcasts, the energy provider, clocks, signing, key derivation, generated
ids) are arbitrary: they are parameters, or functions of the number of calls made so far, so that a remote may
contradict itself.

| Part | Modules |
|---|---|
| Tables, ledger transactions, schema integrity | `Prelude`, `Tables`, `Ledger`, `Integrity` |
| The same transactions as statements and loops | `Transactions`, `Store` |
| Balances, conservation, forks, irreversibility | `Balances`, `Conservation`, `ChainHistory`, `Reorgs`, `Finality`, `Promotions` |
| Orders, addresses and settlement | `Settlement`, `StrandedOrder`, `Lifetimes`, `OrderOutcomes`, `AddressPool` |
| The follower | `Follower`, `FollowerWorker`, `RetainedChain`, `Convergence`, `ForkDelay`, `Provenance` |
| Decoding | `Decode`, `Decoder`, `Credits` |
| Notifications | `Outbox`, `Dispatching` |
| Withdrawals, grants, rentals | `Payouts`, `PayoutStore`, `PayoutMoves`, `Broadcasts`, `Rentals`, `Claims`, `RevivedClaim`, `DailyCap`, `PayoutLedger`, `EngineSession`, `WithdrawalEngine`, `Delegation` |
| One-time passwords | `Totp` |

## Where the code falls short

Two of the intended properties do not hold of the code. Both are stated exactly, and each has a run that breaks it.

* A confirmed order need not be covered by confirmed money. The payment upsert never rewrites `order_id`, so a row that
  a reorganisation brings back unattributed still carries its old order and still counts toward it. Attributing that
  row to another order recalculates only the new one. `StrandedOrder.AttributionCanConfirmAnUnfundedOrder` gives a run
  of sixteen transactions from the empty database: a confirmed order's payment is reported again while the next order
  holds its address, so the order is confirmed a second time and the address is freed under the next order; a fork then
  brings that order's payment back unattributed. No rewind goes below the solidified height, all stamps are later than
  the block times, and every transaction but the attribution meets the hypotheses of settlement and finality.
  `Settlement.AttributionKeepsCoveredIff` gives the condition on the row under which attribution is safe;
  `Settlement.ConfirmedOrdersAreFunded` proves settlement for all runs whose attributions meet it.
* Two withdrawals of one address can be active at once after a forced startup recovery, because a lookup that finds a
  transaction sets its row to broadcast whatever the row's status. `RevivedClaim.ForcedRecoveryCanBreakClaims` gives
  the run: a withdrawal is claimed, sent and failed as absent, the next withdrawal of its address is claimed, and the
  recovery then finds the first one's transaction. `Claims.FoundLookupKeepsClaimsIff` says exactly when a lookup keeps
  claims exclusive.

## Model

| member | source | states |
|---|---|---|
| Transactions.BranchesCountOnce | backend/internal/store/follower.go:463-470 | the two branches of the balance query together count every live row exactly once, at what it moves at the address; a self-transfer stays one debit |
| Transactions.Tx.RecalculateBalance | backend/internal/store/follower.go:472-513 | stores the confirmed and pending sums over the payment rows of one address and asset, and keeps the drift flag |
| Transactions.Tx.RecalculateOrder | backend/internal/store/follower.go:519-577 | received is the sum of the eligible rows, the status follows it, and the result tells exactly whether a paid or confirmed order fell back |
| OrderOutcomes.RecalculationFollowsMoney | backend/internal/store/follower.go:519-577 | an order counts exactly the live incoming rows of its own address and asset inside its payment window; that sum alone decides pending, partial or paid, and a closed order keeps its status |
| Transactions.Tx.RecalculateOrderSet | backend/internal/store/follower.go:427-444 | recalculating orders one at a time is recalculating them all at once, and exactly the fallen-back ones are reported |
| Transactions.Tx.UpsertPayment | backend/internal/store/follower.go:280-334 | one row per key; block data follows the new sighting, status only leaves orphaned, the stored order wins; reports exactly a revived orphan |
| OrderOutcomes.SightingIsStored | backend/internal/store/follower.go:280-334 | a new key adds the record, unconfirmed; a known one takes the new block data, and its status changes only back from orphaned |
| Transactions.Tx.RecalculateTouched | backend/internal/store/follower.go:318-332 | source and owned recipient balances are both brought up to date |
| Transactions.Tx.Match | backend/internal/matcher/matcher.go:43-82 | attribution by status, asset and chain-time window in that order of reasons, then the upsert |
| OrderOutcomes.IncomingIsMatched | backend/internal/matcher/matcher.go:43-82 | an incoming record goes to the order its address serves when that order is open, in the same asset and in time, and to none otherwise, with a reason |
| Transactions.OneMoreBalance | backend/internal/store/confirm.go:83-87 | recalculating a further balance commutes with those already done, so the map's iteration order is irrelevant |
| Transactions.OneMoreOrder | backend/internal/store/confirm.go:88-92 | the same for orders |
| Transactions.OneMoreConfirmation | backend/internal/store/confirm.go:226-233 | confirming orders one at a time, cooling each address once, is confirming the set |
| Store.Store.MatchAll | backend/internal/store/follower.go:239-243 | a block's records are ingested one after another, and the first failure rolls all back |
| Store.Store.CommitBlock | backend/internal/store/follower.go:216-277 | the whole new state or none; refused exactly for a bad depth, a height that does not follow the cursor, a stored height, or a failing record |
| Store.Store.RewindChain | backend/internal/store/follower.go:356-461 | the whole new state or none; counts the rows above the ancestor and reports exactly the orders that fell back |
| OrderOutcomes.RewindLeavesOtherOrders | backend/internal/store/follower.go:427-444 | a rewind changes no order that has no row above the ancestor |
| OrderOutcomes.RewindLeavesOtherBalances | backend/internal/store/follower.go:395-449 | nor a balance that counts no such row |
| Finality.SuspicionHoldsBack | backend/internal/store/follower.go:119-127 | after a suspicion is recorded at a height, a row can be promoted if and only if it could before and lies below that height |
| Finality.ClearingReleases | backend/internal/store/follower.go:130-135 | clearing a suspicion releases exactly the rows it held back, and undoes a first suspicion |
| Finality.TickRespectsSuspicion | backend/internal/store/confirm.go:130-149 | while a suspicion stands, no confirmation tick confirms a row at or above its height |
| Store.Store.ApplyReconciledPayments | backend/internal/store/follower.go:185-213 | all or nothing, and the count is exactly the number of new rows |
| Store.Store.OrphanRows | backend/internal/store/confirm.go:63-70 | marks exactly the selected rows and collects exactly their balances and orders |
| Store.Store.PromoteRows | backend/internal/store/confirm.go:71-82 | confirms exactly the selected rows from the status read before the first pass |
| Store.TwoPasses | backend/internal/store/confirm.go:52-82 | the mismatch pass followed by the promotion pass settles every row as the single rule says; a row selected by both ends promoted |
| Store.Store.Settle | backend/internal/store/confirm.go:52-104 | both passes and every recalculation they call for |
| Store.Store.PromotePaidOrders | backend/internal/store/confirm.go:194-246 | confirms exactly the paid orders whose inspected rows exist and are all confirmed, and cools their assigned addresses |
| Store.Store.ApplySolidifiedHeight | backend/internal/store/confirm.go:26-117 | the whole new state or none; Promotions says what that state is, row by row and order by order |
| Promotions.CanonicalIsTheRun | backend/internal/store/confirm.go:131-146 | the recursive query selects exactly the stored blocks that a parent-linked run joins to the cursor |
| Promotions.TickSettlesExactly | backend/internal/store/confirm.go:119-154 | on the tables: a tick confirms a row if and only if it was unconfirmed, lies at or below the raised solidified height, at least the configured depth below the cursor and below any suspicion, and its block is the stored one on the run to the cursor or it lies below all stored blocks; it orphans exactly the mismatched rows it does not confirm |
| Promotions.TickConfirmsExactly | backend/internal/store/confirm.go:194-246 | on the tables: a tick confirms an order if and only if it is paid, counting its money again when it lost a row, has a paying row after the tick, and all its paying rows are then confirmed |
| Promotions.ConfirmedOrderCools | backend/internal/store/confirm.go:226-242 | the assigned address of an order that a tick confirms starts cooling |
| Store.Store.DueOrders | backend/internal/store/lifecycle.go:21-37 | every due order once, earliest expiry first |
| Store.Store.ExpireOne | backend/internal/store/lifecycle.go:41-62 | recheck first: an order that turned out paid is left paid, any other is expired, with its funds noted, and its address cooled |
| Store.Store.ExpireOrders | backend/internal/store/lifecycle.go:11-100 | the whole new state, and the count of orders expired |
| OrderOutcomes.ExpiryOutcome | backend/internal/store/lifecycle.go:41-62 | a waiting order whose money covers it is paid; any other becomes expired, or expired with funds exactly when it received some, and only then its address cools |
| OrderOutcomes.ExpiryTouchesExactlyTheDue | backend/internal/store/lifecycle.go:21-62 | a pass settles exactly the waiting orders whose deadline has come, each as above, and leaves every other order alone |
| Store.Store.CancelOrder | backend/internal/store/orders.go:387-426 | each refusal exactly when the source refuses, else the cancelled order with its address cooled |
| OrderOutcomes.CancellationOutcome | backend/internal/store/orders.go:387-426 | an order can be cancelled if and only if it is not closed and either forced or still unpaid; cancelled with funds exactly when it received some |
| Store.Store.ExtendOrder | backend/internal/store/orders.go:338-384 | an accepted extension moves the deadline of one active order later, never past the maximum lifetime of its creation, and changes nothing else; a refused one changes nothing |
| Lifetimes.ExtensionAddsWholeSeconds | backend/internal/store/orders.go:338-366 | which extensions succeed, and that they add the whole seconds of the wanted time |
| Lifetimes.ExtensionsStayWithinLifetime | backend/internal/store/orders.go:338-384 | over every run, however often orders are extended, none outlives the maximum lifetime of its creation |
| Store.Store.AttributePayment | backend/internal/store/orders.go:526-569 | the row, its new order and its source balance, or the exact refusal |
| Ledger.NextPoolIndex | backend/internal/store/orders.go:284-291 | the least unused index below 1000, or 1000 |
| Store.Store.NextIndex | backend/internal/store/orders.go:284-291 | the loop finds it |
| Ledger.LowestFree | backend/internal/store/orders.go:187-194 | a free pool address of least index, or none is free |
| Store.Store.DeriveMore | backend/internal/store/orders.go:237-257 | derives the missing addresses at successive least unused indexes; a failed derivation or a duplicate rolls back |
| Store.Store.TopUpPool | backend/internal/store/orders.go:224-262 | the whole new pool or none, and the number added |
| AddressPool.TopUpFillsThePool | backend/internal/store/orders.go:224-262 | a pool that runs low is filled to the target as far as the maximum and the index space allow, never beyond, each new row at the least unused index; any other pool is left alone, and only derivation can fail |
| Store.Store.CreateOrder | backend/internal/store/orders.go:86-185 | claims one free or new address; a taken reference is answered with the order that has it, or refused when consumer, asset or amount differ; every refusal changes nothing |
| AddressPool.CreationTakesTheLeastAddress | backend/internal/store/orders.go:138-222 | an order gets the free pool address of least index, else the next derived one, and is refused exactly when there is neither |
| Store.Store.ReleaseCooled | backend/internal/store/orders.go:294-302 | an address whose cooling has elapsed is free and attributes no payment any more, every other address is untouched, and the count is the number freed |
| AddressPool.CoolingLastsTheCooldown | backend/internal/store/orders.go:294-302 | an address that starts cooling is free again from the end of its cooldown on, and not before |
| Store.Store.DisableAddress | backend/internal/store/orders.go:305-327 | disables an owned address, and fails exactly for an unknown one |
| Integrity.ApplyWellFormed | backend/internal/store/follower.go:291-302 | every ledger transaction keeps payment keys and addresses unique and all references valid |
| Integrity.RunWellFormed | backend/internal/store/follower.go:291-302 | so does every run |
| Balances.RecalculationKeepsCache | backend/internal/store/follower.go:463-513 | recalculating the keys that changed rows touch makes every balances row equal the payment rows again |
| Balances.UpsertKeepsCache | backend/internal/store/follower.go:309-332 | the upsert recalculates enough balances |
| Balances.RewindKeepsCache | backend/internal/store/follower.go:395-449 | so does a rewind, over source and recipient keys |
| Balances.SolidifyKeepsCache | backend/internal/store/confirm.go:61-87 | so does a confirmation tick |
| Balances.AttributionKeepsBalances | backend/internal/store/orders.go:545-564 | manual attribution changes no confirmed or pending balance of any address |
| Balances.FeeKeepsCache | backend/internal/store/withdrawals.go:669-681 | a network fee keeps the cache |
| Balances.GrantReceiptKeepsCache | backend/internal/store/resources.go:286-319 | a grant receipt keeps the cache at the wallet and at the receiver |
| Balances.ApplyKeepsCache | backend/internal/store/follower.go:472-513 | every ledger transaction keeps every balances row equal to the fold of its payment rows, a missing row meaning zero |
| Balances.RunKeepsCache | backend/internal/store/follower.go:472-513 | so does every run whose keys fix their content and whose new addresses were never paid before |
| Conservation.Conserved | backend/internal/store/follower.go:463-500 | summed over owned addresses, confirmed plus pending is inflow minus outflow and fees minus self-transfers |
| Conservation.InternalTransferNetsToZero | backend/internal/store/follower.go:467-470 | a transfer between two distinct owned addresses changes no total |
| Reorgs.CommitMirrors | backend/internal/store/follower.go:216-277 | a commit extends the live rows by exactly the block's transfers |
| Reorgs.RewindMirrors | backend/internal/store/follower.go:418-453 | a rewind takes back exactly the transfers and fees above the ancestor |
| Reorgs.ReconcileMirrors | backend/internal/store/follower.go:185-213 | the safety net, reporting transfers of the current chain again, leaves the live rows as they are |
| Reorgs.ReceiptMirrors | backend/internal/store/resources.go:286-319 | a grant receipt adds exactly its fee to the live rows, and its top-up stays the transfer the chain reported |
| Reorgs.NothingMismatched | backend/internal/store/confirm.go:119-128 | on such a chain the mismatch pass finds nothing |
| Reorgs.LiveRowsAreTheChain | backend/internal/store/follower.go:185-461 | after any run of commits, forks, safety-net reports, fees and receipts, the non-orphaned rows are, as a multiset, exactly the transfers of the surviving chain and the fees booked on it |
| Reorgs.BalancesFollowTheChain | backend/internal/store/follower.go:463-513 | confirmed plus pending of each address and asset is the fold over the surviving chain and its fees |
| Reorgs.ForksLeaveNoTrace | backend/internal/store/follower.go:356-461 | two runs that end on the same chain with the same fees hold the same money, whatever forks each went through |
| Finality.SolidHeightNeverFalls | backend/internal/store/confirm.go:36-43 | no transaction lowers the solidified height |
| Finality.PromotedIsFinal | backend/internal/store/confirm.go:71-82 | what a tick promotes lies in solid history |
| Finality.FinalStays | backend/internal/store/confirm.go:36-82 | a final row stays final under every transaction that respects solid history |
| Finality.FinalityIsMonotone | backend/internal/store/follower.go:291-302 | from any point of a run to its end the final rows only grow and the solid height only rises |
| Settlement.UpsertKeepsCovered | backend/internal/store/follower.go:309-317 | re-ingest keeps paid and confirmed orders covered by their eligible rows, dust included |
| Settlement.ConfirmableIsCovered | backend/internal/store/confirm.go:195-204 | an order the promotion query selects is covered by confirmed money |
| Settlement.AttributionKeepsCoveredIff | backend/internal/store/orders.go:545-564 | attribution keeps every order covered if and only if the row carries no other paid or confirmed order that needs it |
| Settlement.ApplyKeepsCovered | backend/internal/store/follower.go:519-577 | every orderly transaction keeps expected <= received <= eligible sum for paid and confirmed orders |
| Settlement.ConfirmedOrdersAreFunded | backend/internal/store/confirm.go:194-246 | whenever the next tick of an orderly run confirms an order, its confirmed rows sum to at least what it expects |
| StrandedOrder.AttributionCanConfirmAnUnfundedOrder | backend/internal/store/orders.go:526-569 | a run of sixteen transactions from the empty database, lawful but for one attribution, ends with an order of 100 confirmed on 60 |
| Follower.ProcessedMakesProgress | backend/internal/follower/follower.go:206-287 | a processed candidate resolved the suspicion or moved the cursor up by one, so a poll rewinds at most once and terminates |
| FollowerWorker.Worker.ConfirmMismatch | backend/internal/follower/follower.go:245-278 | one poll of a mismatch: what it records, with the clock reading at its first sight, and when it answers that the block was replaced |
| ForkDelay.ForksNeedTwoSightings | backend/internal/follower/follower.go:245-278 | over every sequence of polls, restarts and other transactions: a poll takes blocks back only if an earlier poll of the same process, with a clock reading at least one interval before, was answered with the same other block at that height |
| FollowerWorker.Worker.RecoverReorg | backend/internal/follower/follower.go:289-321 | the backward loop rewinds, halts or fails exactly as the walk does |
| FollowerWorker.Worker.ProcessCandidate | backend/internal/follower/follower.go:206-243 | waiting changes nothing but the suspicion, a processed candidate ends the suspicion or moves the cursor up by one, and the retained blocks stay one linked run |
| FollowerWorker.Worker.Commit | backend/internal/follower/follower.go:328-339 | a processed block is stored at the cursor; a failure to read receipts or to commit leaves the store unchanged |
| FollowerWorker.Worker.CatchUp | backend/internal/follower/follower.go:168-203 | the catch-up loop terminates for arbitrary answers and does what the recursive poll does |
| FollowerWorker.Worker.Tick | backend/internal/follower/follower.go:139-204 | a halted worker does nothing; any other poll keeps the retained blocks one linked run and is the poll that convergence is proved of |
| RetainedChain.CanonicalIsWholeTable | backend/internal/store/confirm.go:135-149 | the recursive canonical query returns the whole blocks table |
| RetainedChain.RetainedIsBounded | backend/internal/store/follower.go:263-266 | at most reorgDepth + 1 blocks are kept |
| RetainedChain.TickRetains | backend/internal/follower/follower.go:139-243 | a poll keeps the blocks one parent-linked run ending at the cursor, whatever the remote answers |
| RetainedChain.RetainedAlways | backend/internal/follower/follower.go:206-243 | so does every sequence of polls, restarts and other workers' transactions |
| RetainedChain.TickIsARun | backend/internal/follower/follower.go:139-204 | what a poll does to the database is a run of follower transactions |
| RetainedChain.TickKeepsBalances | backend/internal/follower/follower.go:139-204 | so polls keep the cached balances |
| Convergence.AncestorWalkIsExact | backend/internal/follower/follower.go:289-321 | against a fixed chain the walk rewinds to the greatest height where ids agree if that is retained and within the depth, else it halts and leaves the store unchanged |
| Convergence.TwoPollsConverge | backend/internal/follower/follower.go:139-339 | two polls at least one interval apart bring the cursor to the remote's tip with every retained block equal and the worker running |
| Provenance.StoredBlocksWereAnswered | backend/internal/follower/follower.go:139-243 | after a poll every stored block was stored before, or is what the node answered during the poll, its milliseconds truncated to seconds |
| Provenance.FirstPollStoresTheTip | backend/internal/follower/follower.go:139-180 | the first poll of an empty store keeps a well-formed tip whose payments can be decoded and stored |
| Decoder.ScreenBlock | backend/internal/decode/decode.go:208-274 | the screening loop, with every error that aborts it |
| Decoder.CreditReceipt | backend/internal/decode/decode.go:297-333 | the receipt loop credits exactly the configured transfers that touch an owned address |
| Decoder.CreditBlock | backend/internal/decode/decode.go:277-336 | native candidates as screened, token candidates from successful receipts only |
| Decoder.Prepare | backend/internal/decode/decode.go:111-152 | preparing a block fails exactly when a relevant transaction cannot be read; otherwise its payments are exactly the transfers of its transactions that touch an owned address, as Credits describes them |
| Credits.BlockMeans | backend/internal/decode/decode.go:207-336 | every payment is of a transfer in its transaction, outgoing exactly when the sender is owned and incoming when only the receiver is, booked at the owned party, with the parties, asset, amount and block of the transfer, dust exactly below the configured minimum; and every configured transfer of a successful transaction that touches an owned address yields its payment |
| Credits.ReconciledMeans | backend/internal/decode/decode.go:158-205 | the same of the safety net |
| Decode.BlockIsItsTransactions | backend/internal/decode/decode.go:111-152 | decoding a block is the concatenation of decoding its transactions, errors included |
| Decode.DecodersAgree | backend/internal/decode/decode.go:158-205 | what the follower credits for a transaction the safety net credits too, record for record, or the follower credits nothing |
| Decode.BlockHasDistinctKeys | backend/internal/decode/decode.go:277-336 | the payments of distinct transactions have distinct (txid, log_index) identities |
| Outbox.ClaimKeepsGood | backend/internal/store/outbox.go:190-212 | the claim query's guard keeps each queue in order |
| Outbox.StepKeepsInv | backend/internal/store/outbox.go:175-336 | every claim, outcome, retry, replay, restart and power loss keeps order, single flight and the workers' holds |
| Outbox.DeliveredIsAPrefix | backend/internal/store/outbox.go:175-336 | in every reachable state the delivered rows of a queue are a prefix, at most one row is in flight, and nothing was delivered without a POST |
| Outbox.PostsFollowDeliveries | backend/internal/ipn/dispatcher.go:132-178 | a row is POSTed only in flight and only after every predecessor was recorded delivered |
| Outbox.PostsNeverGoBack | backend/internal/ipn/dispatcher.go:132-178 | between power losses the POSTs of a queue never return to an earlier event |
| Dispatching.Queue.EnqueueOrderEvent | backend/internal/store/outbox.go:390-446 | an event of any age gets one row, dead at once for a missing or disabled consumer; an empty key or a used id is refused; queues in order stay so unless the event is older than its queue |
| Dispatching.OrderlyEventIsEnqueued | backend/internal/store/outbox.go:390-446 | an event with a new id and no older than its queue is a step of the protocol |
| Dispatching.Queue.ClaimIPN | backend/internal/store/outbox.go:175-229 | claims the oldest eligible head, and nothing exactly when there is none |
| Dispatching.ClaimTakesTheEarliestHead | backend/internal/store/outbox.go:190-212 | the claim takes, among pending rows that are due, for an enabled consumer, with everything before them in their queue delivered, the one due first, by age and then insertion |
| Dispatching.Queue.RecoverIPNClaims | backend/internal/store/outbox.go:232-235 | every interrupted claim is pending again |
| Dispatching.DeliveryUnblocks | backend/internal/store/outbox.go:190-244 | once a row is recorded delivered, and not before, the next row of its queue can be claimed when it is due |
| Dispatching.DeadRowBlocks | backend/internal/store/outbox.go:190-262 | a row that was given up blocks every later row of its queue |
| Dispatching.RevivedHeadIsDue | backend/internal/store/outbox.go:265-277 | a revived row whose predecessors are delivered can be claimed at once |
| Dispatching.Queue.DeadPage | backend/internal/store/outbox.go:281-304 | the smallest matching ids in order, up to the limit |
| Dispatching.Queue.ReplayDeadIPN | backend/internal/store/outbox.go:280-336 | a dry run changes nothing; otherwise exactly the page is revived, and counted |
| Dispatching.FailedRowWaits | backend/internal/ipn/dispatcher.go:205-215 | a failed attempt below the last one can be claimed again exactly once its backoff has passed and its predecessors are delivered; the last one ends the row |
| Dispatching.Dispatcher.DispatchOne | backend/internal/ipn/dispatcher.go:132-178 | one claim, then at most one POST, of the claimed event, and the outcome that the answer to it calls for |
| Dispatching.DispatchIsARun | backend/internal/ipn/dispatcher.go:132-178 | such a call is a run of the protocol |
| PayoutStore.DecimalSumWithin | backend/internal/store/store.go:31-57 | the registered SQL function compares the exact sum with the limit |
| PayoutStore.PayoutStore.CreateWithdrawal | backend/internal/store/withdrawals.go:140-210 | a replayed key with equal fields returns its row, with other fields is refused; otherwise one requested row or the exact refusal |
| PayoutMoves.RequestOutcome | backend/internal/store/withdrawals.go:140-210 | on the tables: a request becomes a requested row if and only if its key is new, its source owned and enabled, the undisputed confirmed balance covers it, and the day has room for it |
| PayoutStore.PayoutStore.ClaimWithdrawal | backend/internal/store/withdrawals.go:286-352 | the loop subtracts what others hold, then claims, rejects or leaves the row |
| PayoutMoves.ClaimOutcome | backend/internal/store/withdrawals.go:286-352 | on the tables: a requested withdrawal is rejected if and only if the confirmed balance does not cover it beside what is moving at its address, and otherwise claimed exactly when nothing moves there; any other stays |
| PayoutStore.PayoutStore.ConfirmWithdrawal | backend/internal/store/withdrawals.go:640-695 | confirms a sent withdrawal once and debits its network fee once |
| PayoutStore.PayoutStore.DebitGrant | backend/internal/store/resources.go:286-319 | the fee row at most once, the top-up row confirmed, both balances recalculated |
| PayoutStore.PayoutStore.RecordResourceGrantReceipt | backend/internal/store/resources.go:268-321 | keeps the first fee and books the receipt, or changes nothing |
| PayoutStore.PayoutStore.ReconcileWithdrawalEnergy | backend/internal/store/withdrawals.go:414-461 | closes exactly the purchased rows of the withdrawal, and counts them |
| Payouts.EnergyPurchaseForWithdrawal | backend/internal/store/energy.go:46-52 | a latest row of the withdrawal by (created_at, id), or there is none |
| PayoutMoves.ChangesAreStamped | backend/internal/store/withdrawals.go:403-640 | a transaction changes only the withdrawal row it names, and every change of its status, and every lookup, leaves the time on it |
| Broadcasts.EveryOpKeepsMarkers | backend/internal/store/withdrawals.go:474-490 | no transaction clears or changes a stored txid, or reopens a settled purchase |
| Broadcasts.MarkersAreNew | backend/internal/store/resources.go:229-246 | an attempt marker is written only where there was none |
| Broadcasts.AtMostOneBroadcast | backend/internal/withdraw/engine.go:505-513 | in every run, with power failures and racing workers, each withdrawal, grant and purchase row is sent at most once |
| Broadcasts.SendsAreDurable | backend/internal/withdraw/engine.go:992-998 | whatever is sent carries a marker that no power failure can take back, from before the send on |
| Rentals.LookUpKeepsRental | backend/internal/withdraw/engine.go:634-674 | if the latest purchase row is missing or quoted, no row of the withdrawal was ever bought or closed |
| Rentals.SingleRental | backend/internal/withdraw/engine.go:633-722 | in every run the provider's Purchase is called at most once per withdrawal |
| Claims.ClaimFits | backend/internal/store/withdrawals.go:286-352 | a claim succeeds if and only if the row is requested, the address idle and without drift, and held plus claimed amounts fit the confirmed balance |
| Claims.FoundLookupKeepsClaimsIff | backend/internal/store/withdrawals.go:516-525 | a found lookup keeps claims exclusive if and only if the row was active or no other active row shares the address |
| RevivedClaim.ForcedRecoveryCanBreakClaims | backend/internal/withdraw/engine.go:315-346 | a careful run, and then one lookup of the forced recovery, ends with two active withdrawals at one address |
| Claims.ClaimsStayExclusive | backend/internal/store/withdrawals.go:333-334 | in every careful run, and after every power failure, no address has two active withdrawals |
| DailyCap.CreateStaysWithin | backend/internal/store/withdrawals.go:184-199 | an accepted request keeps its UTC day within the limit, counting every withdrawal that is neither rejected, failed nor with the operator |
| DailyCap.RefusedOnlyAboveLimit | backend/internal/store/withdrawals.go:184-199 | an otherwise acceptable request is accepted if and only if the day's exact total stays within the limit |
| DailyCap.TotalNeverFalls | backend/internal/store/withdrawals.go:184-199 | no step from a request to its confirmation lowers the total of any day |
| DailyCap.DailyTotalsStayWithin | backend/internal/store/withdrawals.go:175-199 | in every orderly run the USD of the withdrawals of a UTC day that are neither rejected, failed nor with the operator stays within the limit |
| PayoutLedger.PayoutsKeepBalances | backend/internal/store/withdrawals.go:669-681 | payouts keep every balances row equal to its payment rows, in every state a power failure can leave |
| PayoutLedger.TopupIsBooked | backend/internal/store/resources.go:286-319 | a top-up's receipt leaves its transfer confirmed and its fee on record, whether or not the follower saw the transfer first |
| EngineSession.Session.Send | backend/internal/withdraw/engine.go:513-513 | the one outside call happens armed, and its marker is durable |
| EngineSession.Session.SendMarked | backend/internal/withdraw/engine.go:505-513 | marker first, then one send; nothing is sent when the attempt was already spent |
| EngineSession.Session.SendMarkedGrant | backend/internal/withdraw/engine.go:991-1005 | the same for a grant, exactly when it is requested and unspent, and then its response is recorded |
| EngineSession.Session.BuyQuote | backend/internal/withdraw/engine.go:699-704 | the same for a purchase |
| WithdrawalEngine.Engine.SignAndBroadcast | backend/internal/withdraw/engine.go:484-527 | at most one call goes out, for the stored txid of a withdrawal that had none; one whose attempt is unspent is sent when the reference block and the signature are there, with its attempt and expiry on record; without a reference nothing changes, without a signature it goes to the operator |
| WithdrawalEngine.Engine.SettleSent | backend/internal/withdraw/engine.go:514-527 | broadcast unless the node rejected it for good; then one lookup decides: failed when the chain lacks it, the operator when the lookup fails, the receipt when it is found |
| WithdrawalEngine.Engine.Resolve | backend/internal/withdraw/engine.go:1093-1130 | found with a solid success: confirmed, with the fee row and the source balance booked, or an error that changes nothing when the source address is unknown; found with a solid failure: with the operator; found without a solid receipt: broadcast; absent: failed exactly when rejected for good or expired; unanswered: the tenth time in a row to the operator |
| WithdrawalEngine.Engine.BroadcastResourceGrant | backend/internal/withdraw/engine.go:980-1019 | sent once, exactly when the grant is requested and unspent, with its txid and times on record; failed exactly when rejected for good and absent |
| WithdrawalEngine.Engine.AcquireAndSend | backend/internal/withdraw/engine.go:352-482 | no other withdrawal row changes, at most the last call is a withdrawal's: this one's, for its stored txid; and it goes out only when both gates were open for the resources read before |
| WithdrawalEngine.Engine.ReadAndSend | backend/internal/withdraw/engine.go:352-482 | an unspent withdrawal with energy and bandwidth at hand, or an affordable burn, and nothing under way does leave, under the stored txid, once the node and the wallet answer; one of an unconfigured asset goes to the operator; without a reading nothing changes |
| WithdrawalEngine.Engine.EnergyGate | backend/internal/withdraw/engine.go:377-422 | opens only with enough energy at the address, a delivered rental, or a burn that was agreed before or is affordable now; opens at once when energy is there and nothing under way, ends a rental whose energy arrived once it is over, and else seeks a source; sends no withdrawal |
| WithdrawalEngine.Engine.BandwidthGate | backend/internal/withdraw/engine.go:425-475 | opens only with enough bandwidth or an affordable burn, and then has called nobody; opens whenever either holds and no grant is under way; else starts one grant, or fails the withdrawal when none can be had |
| WithdrawalEngine.Engine.CanBurnBandwidth | backend/internal/withdraw/engine.go:548-593 | a burn is agreed if and only if the amount, the energy burn and the bandwidth together fit the confirmed TRX, or the chain's balance once a top-up is booked |
| WithdrawalEngine.Engine.PassBandwidthAndSend | backend/internal/withdraw/engine.go:425-481 | no withdrawal leaves unless the bandwidth gate is open |
| WithdrawalEngine.Engine.SignFrom | backend/internal/withdraw/engine.go:476-481 | signing starts only from the state in which the gates were passed; otherwise nothing changes |
| WithdrawalEngine.Engine.SourceEnergy | backend/internal/withdraw/engine.go:595-631 | a delivered rental first, then one purchase call when renting is possible, then one delegation call when a grant is possible, then a burn if and only if it is affordable |
| WithdrawalEngine.Engine.BurnEnergy | backend/internal/withdraw/engine.go:607-630 | agreed if and only if the fallback is on and the cost fits the ceiling and the drift-free confirmed TRX; otherwise the withdrawal fails, or waits for chain parameters, and a read error changes nothing |
| WithdrawalEngine.Engine.FinishRental | backend/internal/withdraw/engine.go:724-759 | a purchased row is closed as delegated, ending the count of provider failures, if and only if the provider reports success or the time is up; else it stays open |
| WithdrawalEngine.Engine.EnsureGrant | backend/internal/withdraw/engine.go:870-889 | a withdrawal without a grant of the resource gets one, for its source address and the given amount, which is started at once; one that it has is started or reconciled; no second grant and no other withdrawal row |
| WithdrawalEngine.Engine.EnsureDelegation | backend/internal/withdraw/engine.go:870-889 | the grant delegates the least sufficient amount for what is missing; without a usable amount nothing happens |
| WithdrawalEngine.Engine.EnsureTopup | backend/internal/withdraw/engine.go:937-978 | the grant sends the configured amount; with none configured nothing happens |
| WithdrawalEngine.Engine.StartDelegation | backend/internal/withdraw/engine.go:891-935 | a grant that cannot be prepared fails without a send; a prepared one whose attempt is unspent is sent once, with its txid and expiry on record |
| WithdrawalEngine.Engine.ReconcileResourceGrant | backend/internal/withdraw/engine.go:1021-1077 | from the lookup and the receipt: absent fails it once expired; a solid receipt is booked, and then a reverted grant fails, an operator's is confirmed, and a withdrawal's waits for its effect until its deadline; unanswered counts toward the operator; a receipt that cannot be booked is an error that keeps grant and ledger |
| WithdrawalEngine.Engine.GrantLookupFailure | backend/internal/withdraw/engine.go:1079-1091 | each counts one more failure, and the tenth in a row hands the grant and its withdrawal, unless settled, to the operator |
| WithdrawalEngine.Engine.TryRental | backend/internal/withdraw/engine.go:633-674 | by the latest purchase: delivered is ready, given up is passed over, purchased is waited for, and without one or with only a quote renting is tried, with at most one purchase call for a new row |
| WithdrawalEngine.Engine.RentNew | backend/internal/withdraw/engine.go:675-722 | while renting is configured and the circuit closed, one quote: none counts a failure, an unreadable one is an error, one above the maximum is recorded and refused, and an acceptable one is bought by one call, whose answer decides whether the row waits or fails |
| WithdrawalEngine.Engine.PollPurchase | backend/internal/withdraw/engine.go:645-672 | waits exactly until its time is up or the provider refuses the order; then the row fails and one more failure is counted |
| WithdrawalEngine.Engine.FailRental | backend/internal/withdraw/engine.go:761-769 | closes the row, forgets its poll time and counts one more provider failure |
| WithdrawalEngine.Engine.RecordProviderFailure | backend/internal/withdraw/engine.go:771-783 | the fifth failure in a row opens the circuit for ten minutes |
| WithdrawalEngine.Engine.ProviderEnabled | backend/internal/withdraw/engine.go:785-799 | open exactly while the circuit's time runs, then closed again |
| WithdrawalEngine.Engine.EnergyPollDue | backend/internal/withdraw/engine.go:807-816 | at most one poll per interval |
| WithdrawalEngine.Engine.Recover | backend/internal/withdraw/engine.go:276-350 | no withdrawal with a stored txid is sent, a waiting one is sent at most once, only candidates change; when no error stops it, every sent candidate was looked up and stands as the answers say, every stuck one is with the operator, and every startable grant of an operator was called out |
| WithdrawalEngine.Engine.RecoverOne | backend/internal/withdraw/engine.go:303-348 | a sent withdrawal is only looked up, and resolved unless it is too soon, a stuck one goes to the operator, a waiting one is served, and after a restart one that waits for energy has its purchases closed first |
| WithdrawalEngine.Engine.RecoverGrants | backend/internal/withdraw/engine.go:281-302 | each operator's grant that was requested is started and each that was sent is settled as the chain says; no withdrawal and no withdrawal's grant changes |
| Delegation.LeastSufficientDelegation | backend/internal/withdraw/engine.go:1174-1195 | the delegated amount is the least that covers the missing units and one TRX; refused exactly when the ratio is unusable or it does not fit 64 bits |
| Totp.ReplayIsRefused | backend/internal/store/api.go:276-285 | a code that was accepted is refused for the same step, before and after any prune that can matter |
| Totp.YoungRowsSurvive | backend/internal/store/lifecycle.go:103-109 | a prune spares every row younger than five minutes, unchanged, and removes the rest |
| Totp.Server.ValidateTOTP | backend/internal/api/auth.go:34-53 | accepts exactly an unused first matching step within one step of now |
| Totp.CodesOfNearbySteps | backend/internal/api/auth.go:34-53 | a code is taken if and only if it is that of the present step, the one before or the one after |
| Totp.NoCodeIsAcceptedTwice | backend/internal/api/auth.go:34-53 | over any interleaving of validations and prunes no (code, step) is accepted twice |

## Left out

Hypotheses that theorems carry as preconditions:

- Balances.RunKeepsCache: a (txid, log_index) fixes a transfer's content, and a newly derived address was never a destination before.
- Reorgs.LiveRowsAreTheChain: runs start empty, a committed block reports each transfer once, the safety net reports transfers of the current chain with the data of their blocks, and a top-up's transfer is on the chain before its receipt is booked.
- Settlement.ConfirmedOrdersAreFunded: release stamps are later than ingested block times, re-ingested dust keeps its block time, and attributions meet the condition of Settlement.AttributionKeepsCoveredIff.
- Finality.FinalityIsMonotone: no rewind goes below the solidified height and re-ingest keeps solid rows at their height.
- ForkDelay.ForksNeedTwoSightings: decoded records are not orphaned, and the process starts without a suspicion.
- Convergence.TwoPollsConverge: the remote answers from one fixed chain, the fork point is retained, block ids stand for one block each, and the decoder answers with records of known addresses.
- Outbox.DeliveredIsAPrefix: created_at does not fall within a queue; the protocol's enqueueing step has no such row. Dispatching.Queue.EnqueueOrderEvent takes one, as the source does, and promises the order of queues only without it.
- Outbox.PostsNeverGoBack: no power loss in between, since the outcome of a delivery is not a FULL commit.
- Rentals.SingleRental: (created_at, id) of new purchase rows increases, one rental is under way at a time, as in the single engine goroutine, and a purchase is failed only after it was read as purchased (Broadcasts.MayFail).
- Claims.ClaimsStayExclusive: the engine handles one withdrawal at a time, and lookups are those of the unforced recovery.
- DailyCap.DailyTotalsStayWithin: the limit is fixed, the clock does not run backwards, and no row is counted again after it was rejected, failed or escalated.
- Decode.DecodersAgree: the receipt of a native transfer carries no transfer of a configured token to or from an owned address.
- Totp.NoCodeIsAcceptedTwice: no validation reaches the table more than 180 seconds behind an earlier prune, and no power loss takes back a used row.

What the model does not contain:

- The outbox rows that ledger and payout transactions insert are not written by those transactions here; the outbox takes its rows from an enqueueing step in any order.
- The rest of the engine's tick (backend/internal/withdraw/engine.go:243-274): after the recovery it serves every waiting withdrawal and claims the next one by the calls modelled here; over runs these are protocol steps in any order.
- WithdrawalEngine.Engine.Recover: candidates are taken in row order, where the source orders them by creation time; ids and clock readings to come are later than stored purchases; the preparation of a grant is an answer of the outside.
- PayoutStore.PayoutStore.ReconcileWithdrawalEnergy: the summed energy cost it writes to the withdrawal, like the one CompleteEnergyPurchase writes, is a reported figure that no decision reads, and is not part of this model.
- The resource estimate for display, the balance check of the provider and the creation of operators' grants.
- EngineSession.Session.RecordOrder: the provider's order numbers, actual prices and delegation ids; they decide nothing modelled here.
- Bandwidth sources and resource costs on withdrawal rows, fee and energy figures, failure reasons, audit rows, updated_at stamps and metadata.
- Amounts are numbers: strings that do not parse as non-negative integers, and the roll-backs they cause, are not part of this model; USD values and limits may be unparsable.
- Retry of SQLite errors, context cancellation, pacing sleeps, logging, metrics, worker health and price polling.
- The address-history paging of the safety net; it appears as the ingest of arbitrary records.
- Event payloads, signatures, target URLs and HTTP transport; consumer configuration changes between claim and outcome appear as arbitrary parameters of each step.
- Base58, hexadecimal, JSON and protobuf syntax, key derivation and signing, which are arbitrary functions.
- ResolveFundedOrder, listings, reports and the remaining HTTP handlers.
