# Verification of the X407 payment services

A Dafny model of the parts of the X407 repository that move money or account for it, with proofs about every
run, every interleaving and every input. Each file models one component:

| file | component |
|---|---|
| `Merkle.dfy`, `Receipts.dfy` | the receipt batcher of the facilitator and its Merkle root |
| `Journal.dfy`, `Ledger.dfy`, `Payments.dfy` | the Rust double-entry ledger, its balance cache and invoice settlement |
| `Risk.dfy` | the Rust velocity tracker and risk engine |
| `RateLimiter.dfy`, `Digits.dfy` | the sliding-window rate limiter |
| `Credit.dfy`, `Treasury.dfy` | prepaid credit accounts and the treasury's refill policy |
| `Channels.dfy` | payment channels: server, SDK client and network |
| `Settlement.dfy`, `Interleaving.dfy` | `verifyPayment` as one step, and split at its waits |
| `UnykornTx.dfy` | the checks of a UnyKorn transaction |
| `StrKey.dfy`, `Levenshtein.dfy`, `Units.dfy`, `Routes.dfy` | address decoding, edit distance, unit parsing, route patterns |
| `Buffers.dfy` | the metering client and the audit log |
| `Basics.dfy`, `Wrappers.dfy` | shared notions |

Each stateful component has a state, a function `Next` for its atomic steps and a function `Run` for sequences of
them; a class whose methods update fields in place is proved to follow `Next`, and the lemmas range over `Run`.
One committed database transaction is one step. Amounts are whole numbers of the smallest unit stored, instants
are given to each operation (in milliseconds, and in microseconds where the database stamps a row), and the hash is a
parameter. `dafny verify dfyconfig.toml`
checks everything.

Where a promise does not hold of the code, the code is kept and the exact condition is proved:

- The balance guard of `verify_and_settle` reads `invoice.asset`, the charge uses the asset of `invoice.amount`
  (`MixedAssetsDrift`, `SettleAgrees`); and the call leaves the invoice payable (`SettlesAgain`). The HTTP route
  (`packages/fth-financial-core/crates/fth-api/src/routes/invoices.rs:46-74`) builds both fields from one value, so
  two different assets reach the code only through the public functions of the library.
- At most one settlement per invoice needs calls that do not overlap before the invoice is marked (`AtMostOnce`); two
  calls past the checks both settle iff both can (`OverlapSettlesIff`, with `OverlapChargesTwice` as an input).
- "Paid" and "has a receipt" differ exactly when an expiry overtakes the marking (`PaidIffNotSwept`, with
  `ExpiryOvertakesMark` as an input).
- A channel proof is compared neither with the invoice it settles nor with the owner of its channel, and a
  transaction not with those already used (`SignedForItIff`, `ByOwnerIff`, `UsedOnceIff`). The reference check of
  UnyKorn transactions refuses nothing (`UnykornTx.AcceptedIff`).
- The rate limiter's retry hint is a second short when the oldest row is stamped between two milliseconds and the
  wait is a whole number of seconds (`RetryHint`, with `HintTooShort` as an input).
- The migration's CHECK constraint on `credit_transactions.type` does not list the escrow kinds, while the schema
  of the container image (`aws/docker/init-db.sql:38-49`) has no constraint; the set of allowed kinds is a
  parameter (`EscrowNeedsItsKinds`).
- Comparing transfers in units is faithful iff no non-zero digit of the invoice amount is cut off
  (`ComparisonIsFaithfulIff`).
- The metering client's comment promises that shutdown flushes the remaining events; they are delivered iff none
  waits behind a flush already under way and the last request succeeds (`ShutdownDelivers`).
- The metering client flushes at its size limit, but not when a flush ends with the limit already reached; the exact
  condition for the limit to hold is `LimitHoldsIff`.
- The audit log keeps its entries, but their order only while batches end in their turn (`AuditRunOrdered`, with
  `OverlapReorders` as an input).
- A path is not always the interpolation of its own match: a parameter called `__proto__` cannot be assigned, and
  unassigned inherited names are replaced (`MatchThenInterpolate`, `NothingToInterpolate`).

## Model

| member | source | states |
|---|---|---|
| Merkle.SplitPointIsLargest | packages/fth-x402-facilitator/src/services/receipts.ts:199-217 | the split point of a tree of n >= 2 leaves is the largest power of two below n |
| Merkle.RoundKeepsRoot | packages/fth-x402-facilitator/src/services/receipts.ts:204-214 | one round of the level loop, with an odd last node promoted, leaves the root of the recursive tree unchanged, for every level of two or more nodes |
| Merkle.RoundKeepsInputs | packages/fth-x402-facilitator/src/services/receipts.ts:204-214 | and what the tree hashes is what that round hashes together with what the tree above it hashes |
| Merkle.HashLevel | packages/fth-x402-facilitator/src/services/receipts.ts:206-213 | the inner loop hashes neighbours, exactly those, and promotes an odd last node |
| Merkle.ComputeMerkleRoot | packages/fth-x402-facilitator/src/services/receipts.ts:199-217 | the nested loops return the root of the recursive tree (the shape of section 2.1 of RFC 6962 without prefix bytes) in exactly ceil(log2 n) rounds that hash exactly the inputs of its inner nodes; one leaf is its own root and the empty batch has the hash of the empty string |
| Merkle.Inclusion | packages/fth-x402-facilitator/src/services/receipts.ts:199-217 | hashing upwards from leaf i along the siblings of its place, left or right by position, gives the root |
| Merkle.FindCollision | packages/fth-x402-facilitator/src/services/receipts.ts:199-217 | two different leaf lists of equal length with equal roots have inner nodes, one in each tree, whose hash inputs differ and hash alike |
| Merkle.RootBindsBatch | packages/fth-x402-facilitator/src/services/receipts.ts:124-134 | two batches that agree on the stored pair (merkle_root, item_count) are the same list of receipt identifiers, or a string hashed for the one and a different string hashed for the other collide |
| Merkle.RootDeterminesBatch | packages/fth-x402-facilitator/src/services/receipts.ts:124-134 | for a hash that does not collide on the strings the two flushes hash, equal pairs and equal batches are the same thing |
| Merkle.CountIsNeeded | packages/fth-x402-facilitator/src/services/receipts.ts:130-134 | without item_count the root does not bind: every list of two or more leaves shares its root with a strictly shorter list |
| Receipts.StartFlushKeeps | packages/fth-x402-facilitator/src/services/receipts.ts:119-126 | cutting a slice off the queue keeps the whole invariant: a further batch of at most 100 items with the root of its items, and nothing lost or reordered |
| Receipts.FlushMeans | packages/fth-x402-facilitator/src/services/receipts.ts:119-127 | for the list of h(receipt_id) of the first receipts in the queue, a hundred at most and in queue order, the batch that is cut has those receipts and the tree root of that list |
| Receipts.ReceiptIncluded | packages/fth-x402-facilitator/src/services/receipts.ts:122-133 | the digest of every receipt of a batch climbs along its audit path to the stored root |
| Receipts.InsertMeans | packages/fth-x402-facilitator/src/services/receipts.ts:81-97 | the first half of a creation stores one row without a batch and nothing else |
| Receipts.CreationMeans | packages/fth-x402-facilitator/src/services/receipts.ts:99-108 | the second half cuts a batch iff its receipt is the hundredth in the queue, and then of all hundred in order |
| Receipts.WritesMean | packages/fth-x402-facilitator/src/services/receipts.ts:129-140 | the root row holds root and item count; the update sets the batch on exactly the receipts of the batch |
| Receipts.BatchesDisjoint | packages/fth-x402-facilitator/src/services/receipts.ts:122-122 | no receipt lies in two batches |
| Receipts.MarksAfterMark | packages/fth-x402-facilitator/src/services/receipts.ts:136-141 | the UPDATE of one batch leaves the batch identifiers of all other batches alone |
| Receipts.RunKeeps | packages/fth-x402-facilitator/src/services/receipts.ts:69-153 | over every interleaving of creations and flushes at their database waits: batches in flush order followed by the queue are the receipts in push order, each batch has 1 to 100 items with its own root and count stored under its identifier, the queue is shorter than 100, and a row carries a batch identifier iff it lies in a marked batch |
| Receipts.SettledReceipts | packages/fth-x402-facilitator/src/services/receipts.ts:69-153 | once everything has finished, each receipt points at exactly one stored batch, which holds it and whose row has the root and count of its items |
| Receipts.ReceiptService.InsertReceipt | packages/fth-x402-facilitator/src/services/receipts.ts:81-97 | the first half of createReceipt inserts a row without a batch |
| Receipts.ReceiptService.ResumeCreate | packages/fth-x402-facilitator/src/services/receipts.ts:99-108 | the second half queues the receipt and flushes at 100 |
| Receipts.ReceiptService.FlushBatch | packages/fth-x402-facilitator/src/services/receipts.ts:119-126 | one slice leaves the queue and becomes a batch with its Merkle root |
| Receipts.ReceiptService.InsertRoot | packages/fth-x402-facilitator/src/services/receipts.ts:129-133 | the root row of a batch: its root and its item count |
| Receipts.ReceiptService.UpdateReceipts | packages/fth-x402-facilitator/src/services/receipts.ts:136-140 | exactly the receipts of the batch get its identifier |
| Journal.Validate | packages/fth-financial-core/crates/fth-ledger/src/journal.rs:52-93 | accepts exactly the non-empty entries whose debits equal credits in every asset; otherwise the error carries the totals of an asset that differs (zeros for an empty entry) |
| Journal.EntryBuilder.AddDebit | packages/fth-financial-core/crates/fth-ledger/src/journal.rs:114-122 | appends a debit leg |
| Journal.EntryBuilder.AddCredit | packages/fth-financial-core/crates/fth-ledger/src/journal.rs:124-132 | appends a credit leg |
| Journal.EntryBuilder.Build | packages/fth-financial-core/crates/fth-ledger/src/journal.rs:145-157 | builds exactly the balanced entries |
| Journal.TotalIsNet | packages/fth-financial-core/crates/fth-ledger/src/journal.rs:50-93 | over any set of accounts that covers the legs, the balances of an asset add up to credits minus debits |
| Journal.BalanceCache.Set | packages/fth-financial-core/crates/fth-ledger/src/balance.rs:42-44 | sets one balance and nothing else |
| Journal.BalanceCache.ApplyDelta | packages/fth-financial-core/crates/fth-ledger/src/balance.rs:47-64 | refuses exactly the deltas that would make the balance negative, with the available balance and the absolute delta; a refused delta changes no balance but leaves the key present |
| Journal.BalanceCache.Remove | packages/fth-financial-core/crates/fth-ledger/src/balance.rs:67-69 | removes one key |
| Ledger.NextDrift | packages/fth-financial-core/crates/fth-ledger/src/engine.rs:67-164 | every step of every call keeps the drift equation |
| Ledger.CacheDrift | packages/fth-financial-core/crates/fth-ledger/src/engine.rs:67-164 | over every interleaving of submissions, leg by leg and from any opening balance: cache + deltas still to apply = opening + journal balance + refused legs with their sign turned; the cache is negative only while it shows a negative opening balance, and from a non-negative one only positive debits are refused |
| Ledger.QuiescentCache | packages/fth-financial-core/crates/fth-ledger/src/engine.rs:148-164 | at rest the cache is the journal balance plus what was refused; from a non-negative opening balance it is never below the journal balance, and equals it iff no debit of that balance was refused, whatever the apply order |
| Ledger.RunNumbered | packages/fth-financial-core/crates/fth-ledger/src/engine.rs:71-98 | every committed call is posted exactly once, under its own number, with its own balanced entry |
| Ledger.BookedIsBalance | packages/fth-financial-core/crates/fth-ledger/src/engine.rs:102-125 | a booked balance is the balance of the posted legs |
| Ledger.Conservation | packages/fth-financial-core/crates/fth-ledger/src/engine.rs:67-164 | in every run each asset sums to zero over all accounts that occur |
| Ledger.SerialIsARun | packages/fth-financial-core/crates/fth-ledger/src/engine.rs:67-168 | a submission that is not interleaved is one of these runs |
| Ledger.Engine.Submit | packages/fth-financial-core/crates/fth-ledger/src/engine.rs:67-168 | validates, numbers, commits and walks the legs through the cache; an entry that fails validation takes no number, one whose transaction fails takes a number and posts nothing |
| Payments.PaymentVerifier.VerifyAndSettle | packages/fth-financial-core/crates/fth-settlement/src/payments.rs:25-87 | the guards in order with their errors, then one charge entry from payer to payee |
| Payments.PostedIffPayable | packages/fth-financial-core/crates/fth-settlement/src/payments.rs:32-77 | one entry, payer debited and payee credited with the invoice amount under the transaction's reference, is posted iff the invoice is pending, unexpired and covered by the balance in the asset it names and the database commits; otherwise neither journal nor cache changes |
| Payments.ChargeEffect | packages/fth-financial-core/crates/fth-settlement/src/payments.rs:55-77 | a committed charge moves cache and books alike, except that an uncovered debit is lost to the cache |
| Payments.SettleAgrees | packages/fth-financial-core/crates/fth-settlement/src/payments.rs:45-77 | from an agreeing state a call keeps cache and books equal and non-negative iff it is refused, fails to commit, or the balance actually charged covers the amount; this always holds when the two asset fields of the invoice coincide |
| Payments.RunAgrees | packages/fth-financial-core/crates/fth-settlement/src/payments.rs:25-87 | serial runs of invoices with coinciding asset fields keep the cache equal to the journal balance and every balance non-negative |
| Payments.MixedAssetsDrift | packages/fth-financial-core/crates/fth-settlement/src/payments.rs:45-68 | the guard reads the balance in invoice.asset while the legs use the asset of invoice.amount: a concrete accepted call after which cache and books disagree |
| Payments.SettlesAgain | packages/fth-financial-core/crates/fth-settlement/src/payments.rs:32-86 | settling does not mark the invoice, so the same request is accepted again iff the charge left the balance the guard reads untouched or that balance covers the amount twice |
| Risk.DecisionMeaning | packages/fth-financial-core/crates/fth-risk/src/engine.rs:74-133 | enforcing, a transaction is allowed iff it is within all three limits; audit mode never denies; a denial has a rule, no flags and a score of at least 0.9, an enforced approval a score of at most 0.2 |
| Risk.DenialRules | packages/fth-financial-core/crates/fth-risk/src/engine.rs:83-111 | each denial names the first limit exceeded in the order single amount, count, window amount, with scores 1.0, 0.9, 0.95 |
| Risk.ApprovalFlags | packages/fth-financial-core/crates/fth-risk/src/engine.rs:83-132 | an approval carries exactly the flags of the limits exceeded or more than four fifths used, and the sum of their weights up to 1.0 |
| Risk.WindowSums | packages/fth-financial-core/crates/fth-risk/src/velocity.rs:45-52 | the amounts of a window add up and its count is the number of samples modulo 2^32 |
| Risk.TouchedWindow | packages/fth-financial-core/crates/fth-risk/src/velocity.rs:79-121 | after any history an operation leaves the window it touches with exactly the recent samples and all others as they were; a sweep drops the empty ones |
| Risk.Prune | packages/fth-financial-core/crates/fth-risk/src/velocity.rs:33-43 | the loop pops exactly the leading samples that are too old |
| Risk.WindowIsHistory | packages/fth-financial-core/crates/fth-risk/src/velocity.rs:33-121 | after any mix of record, peek, evaluate and eviction, pruning the window of an account gives exactly the recent part of everything ever recorded for it |
| Risk.RollingBound | packages/fth-financial-core/crates/fth-risk/src/engine.rs:74-138 | enforcing, when every record follows an allowed evaluation with no other record of that account in between: at every instant t the amounts in [t - W, t] sum to at most max_window_amount and number at most max_window_count |
| Risk.VelocityTracker.RecordSample | packages/fth-financial-core/crates/fth-risk/src/velocity.rs:79-88 | prunes one account, appends the sample and returns the new count and total |
| Risk.VelocityTracker.PeekWindow | packages/fth-financial-core/crates/fth-risk/src/velocity.rs:91-100 | count and total of the pruned window; an unknown account is not added |
| Risk.VelocityTracker.EvictStale | packages/fth-financial-core/crates/fth-risk/src/velocity.rs:108-121 | prunes every account, drops those left empty and counts them |
| Risk.RiskEngine.EvaluateTransaction | packages/fth-financial-core/crates/fth-risk/src/engine.rs:74-133 | the decision on the pruned window; a failed single-amount rule returns before the window is touched |
| Risk.RiskEngine.RecordTransaction | packages/fth-financial-core/crates/fth-risk/src/engine.rs:136-138 | records on the one account |
| Risk.RiskEngine.Maintenance | packages/fth-financial-core/crates/fth-risk/src/engine.rs:141-143 | evicts on all accounts |
| RateLimiter.ParseRateLimitIff | packages/fth-x402-facilitator/src/services/rate-limiter.ts:51-65 | accepts exactly digits/second, /minute, /hour or /day, with that count and window; no window exceeds a day |
| RateLimiter.UnitTable | packages/fth-x402-facilitator/src/services/rate-limiter.ts:58-64 | second, minute, hour and day, nothing else, stand for 1, 60, 3600 and 86400 seconds |
| RateLimiter.TierTable | packages/fth-x402-facilitator/src/services/rate-limiter.ts:40-45 | the tier multipliers are 1, 2, 5 and 10 |
| RateLimiter.VerdictMeans | packages/fth-x402-facilitator/src/services/rate-limiter.ts:87-141 | a check is allowed iff fewer rows than the limit lie after now - W for this wallet and namespace; remaining counts what is left; exactly the allowed requests are recorded |
| RateLimiter.CleanupMeans | packages/fth-x402-facilitator/src/services/rate-limiter.ts:148-155 | a cleanup keeps every row of the last 24 hours as often as it was there and no older one |
| RateLimiter.SameWindow | packages/fth-x402-facilitator/src/services/rate-limiter.ts:87-97 | a cleanup is invisible to the windows of later checks |
| RateLimiter.CleanupInvisible | packages/fth-x402-facilitator/src/services/rate-limiter.ts:148-155 | no 24-hour cleanup, whenever it runs, changes the outcome of a later check |
| RateLimiter.GrantedIsUncleaned | packages/fth-x402-facilitator/src/services/rate-limiter.ts:130-134 | the requests granted by the cleaning limiter are the rows of a log that is never cleaned |
| RateLimiter.WindowBound | packages/fth-x402-facilitator/src/services/rate-limiter.ts:77-142 | with one fixed limit, every window (t - W, t] holds at most the limit of granted requests, to the microsecond, however long after its check a row is inserted |
| RateLimiter.RetryHint | packages/fth-x402-facilitator/src/services/rate-limiter.ts:101-128 | a denial carries a hint of r >= 1 seconds. On the same log the request is still denied r - 1 seconds later and allowed r + 1 seconds later; r seconds later it is allowed iff the oldest row is not stamped between two milliseconds with a wait of whole seconds. Under a zero limit no wait helps |
| RateLimiter.HintTooShort | packages/fth-x402-facilitator/src/services/rate-limiter.ts:112-119 | an input in that corner: a row at 5.3 ms, a check at 5 ms, a window of one second |
| RateLimiter.RemainingCounts | packages/fth-x402-facilitator/src/services/rate-limiter.ts:136-141 | remaining is the number of further requests that the same instant would still grant |
| RateLimiter.Limiter.CheckRateLimit | packages/fth-x402-facilitator/src/services/rate-limiter.ts:77-142 | refuses a malformed limit without recording; otherwise applies the tier multiplier, counts the window and records exactly the allowed requests |
| RateLimiter.Limiter.CleanupLog | packages/fth-x402-facilitator/src/services/rate-limiter.ts:148-155 | deletes exactly the rows older than a day |
| Credit.NextConserves | packages/fth-x402-facilitator/src/services/settle.ts:56-162 | every operation keeps balances equal to the signed sum of their movements |
| Credit.RunConserves | packages/fth-x402-facilitator/src/services/settle.ts:56-353 | over every run of committed transactions each balance is the signed sum of its rows, and each row recorded the sum up to itself |
| Credit.LatestShowsBalance | packages/fth-x402-facilitator/src/services/settle.ts:84-98 | the newest row of a wallet shows its current balance |
| Credit.StaysNonNegative | packages/fth-x402-facilitator/src/services/settle.ts:121-162 | a debit never makes a balance negative; a credit does iff its amount is below minus the balance |
| Credit.NeverOverdrawn | packages/fth-x402-facilitator/src/services/settle.ts:234-258 | with non-negative credits no run overdraws an account |
| Credit.FrozenKeeps | packages/fth-x402-facilitator/src/services/settle.ts:121-142 | over every run that neither unfreezes it nor credits it a negative amount, a frozen account stays frozen and its balance does not fall |
| Credit.FreezeHolds | packages/fth-x402-facilitator/src/services/settle.ts:121-142 | the same from the moment it is frozen |
| Credit.DebitTaken | packages/fth-x402-facilitator/src/services/settle.ts:121-162 | a debit takes effect iff the account exists, is unfrozen and covers the amount and its kind can be stored; the balance falls by exactly the amount and the row shows the new balance |
| Credit.CreditTaken | packages/fth-x402-facilitator/src/services/settle.ts:290-353 | a credit takes effect iff its kind can be stored; it raises the balance, from zero if the wallet is new, by exactly the amount |
| Credit.CreditLedger.GetOrCreateAccount | packages/fth-x402-facilitator/src/services/settle.ts:15-38 | returns the account, creating an empty unfrozen one only if there was none |
| Credit.CreditLedger.CreditWallet | packages/fth-x402-facilitator/src/services/settle.ts:290-353 | the body of deposit and escrowRelease: credits, creating the account if needed; a row the table refuses rolls the balance back |
| Credit.CreditLedger.DebitWallet | packages/fth-x402-facilitator/src/services/settle.ts:121-162 | the body of charge and escrowLock: debits iff the account exists, is not frozen and covers the amount |
| Treasury.FundedCapped | packages/fth-x402-treasury/src/services/treasury.ts:406-410 | one funding keeps every day within its cap |
| Treasury.DailyCap | packages/fth-x402-treasury/src/services/treasury.ts:358-501 | over every interleaving of registrations, fundings, triggers, halts and other ledger operations, with clock readings in any order, an agent's refills of a day up to any one of them are within the cap in force at that one |
| Treasury.DayStartIsMidnight | packages/fth-x402-treasury/src/services/treasury.ts:146-160 | the midnight that the guard sums from is the start of the calendar day: two instants share it iff they lie in the same 86400000 ms, and t is not before that of a iff its day is not before that of a |
| Treasury.GuardReadsTheDay | packages/fth-x402-treasury/src/services/treasury.ts:146-160 | the sum since midnight is the sum of the refills of that wallet on that calendar day, unless the log holds later days |
| Treasury.WholeDay | packages/fth-x402-treasury/src/services/treasury.ts:146-160 | so the last refill of a day bounds the whole day |
| Treasury.RecommendationIsFundable | packages/fth-x402-treasury/src/services/treasury.ts:300-356 | on unchanged state fundAgent accepts a recommendation iff it is positive and not blocked, and it never passes the target |
| Treasury.RecommendationIsLargest | packages/fth-x402-treasury/src/services/treasury.ts:300-356 | a refill is needed iff the balance is below the minimum; then fundAgent accepts no larger amount that stays within the target; blocked iff inactive, frozen, halted or needed with the cap used up |
| Treasury.FundTaken | packages/fth-x402-treasury/src/services/treasury.ts:358-501 | a funding takes effect iff the agent is known, active, unfrozen and unhalted, the amount is positive, within the single cap and within what the day leaves, and the deposit can be stored; then wallet, movements and refills each grow by it and nothing else changes |
| Treasury.FundErrors | packages/fth-x402-treasury/src/services/treasury.ts:358-410 | the error of each refusal, in the order of the guards |
| Treasury.ActiveHaltIsNewest | packages/fth-x402-treasury/src/services/treasury.ts:162-181 | the halt reported is the newest active one that is global, of this wallet or of this namespace, and none is reported iff there is none |
| Treasury.HaltHolds | packages/fth-x402-treasury/src/services/treasury.ts:358-410 | while a global halt or one of its wallet is not cleared, no run gives the agent a refill |
| Treasury.HaltsMean | packages/fth-x402-treasury/src/services/treasury.ts:635-671 | setting appends an active halt; clearing deactivates exactly those of the scope whose key has the same text |
| Treasury.RegisterMeans | packages/fth-x402-treasury/src/services/treasury.ts:183-240 | registering stores an active policy and opens the account, iff there is a wallet and the target is not below the minimum |
| Treasury.TriggerMeans | packages/fth-x402-treasury/src/services/treasury.ts:503-551 | a trigger is the funding of a positive unblocked recommendation of an agent that is not overdrawn, and else nothing |
| Treasury.Converges | packages/fth-x402-treasury/src/services/treasury.ts:697-713 | for an active, unfrozen, unhalted agent with a positive single cap, enough ticks within a day end with the balance at least min(min_balance, target_balance) or the daily cap used up, and never above the target |
| Treasury.DoneStays | packages/fth-x402-treasury/src/services/treasury.ts:503-551 | and that outcome is stable under further ticks |
| Treasury.LedgerConserved | packages/fth-x402-treasury/src/services/treasury.ts:412-436 | refills are deposits, so the conservation of the credit ledger survives every run |
| Treasury.TreasuryService.RegisterAgent | packages/fth-x402-treasury/src/services/treasury.ts:183-240 | opens the account and stores the policy, reactivating the agent; an empty wallet or a target below the minimum is refused |
| Treasury.TreasuryService.FundAgent | packages/fth-x402-treasury/src/services/treasury.ts:358-501 | the guards in order with their errors; success credits the wallet and logs the refill |
| Treasury.TreasuryService.TriggerRecommendedRefill | packages/fth-x402-treasury/src/services/treasury.ts:503-551 | fails for an unknown or overdrawn agent, does nothing without a positive unblocked recommendation, and otherwise funds it or passes on the error of the guard |
| Treasury.TreasuryService.SetTreasuryHalt | packages/fth-x402-treasury/src/services/treasury.ts:635-671 | adds an active halt, or deactivates those of the same scope and key |
| Channels.RunKeeps | packages/fth-x402-facilitator/src/services/channels.ts:21-149 | every step of servers, clients and network keeps the three channel invariants |
| Channels.ChannelSafety | packages/fth-x402-facilitator/src/services/channels.ts:58-118 | with a network that drops, duplicates and reorders, and with proofs from any other payer: accepted sequences strictly increase, so no proof settles twice, and those of issued proofs are a subsequence of them; available + spent = deposited, spent = sum of accepted amounts, no deposit is overdrawn |
| Channels.SpentNonNegative | packages/fth-x402-facilitator/src/services/channels.ts:99-108 | with non-negative amounts what is spent is non-negative |
| Channels.ClosedForGood | packages/fth-x402-facilitator/src/services/channels.ts:123-149 | a closed channel never changes and accepts nothing more |
| Channels.CloseCloses | packages/fth-x402-facilitator/src/services/channels.ts:123-149 | whatever follows a close, the row is what it was except closed and nothing more is accepted on it; other rows stay as they are |
| Channels.OpenOpens | packages/fth-x402-facilitator/src/services/channels.ts:21-48 | an unused identifier becomes an open channel of its owner with sequence 0 and the whole deposit available; a used one is left alone |
| Channels.SpendTaken | packages/fth-x402-facilitator/src/services/channels.ts:58-118 | a spend is taken iff the channel exists, is open, the sequence is above the row's and the funds suffice; then sequence, spent and available move by it, and otherwise nothing changes |
| Channels.SpendErrors | packages/fth-x402-facilitator/src/services/channels.ts:75-96 | the errors of a spend in their order |
| Channels.InOrderSpends | packages/fth-x402-sdk/src/channels.ts:18-43 | with in-order delivery of the clients' own proofs, lossy or not, and clients starting where their channels stand, no honest spend fails the sequence check |
| Channels.FirstSpend | packages/fth-x402-facilitator/src/services/channels.ts:82-87 | the first spend of a new client passes the sequence check iff the client did not start below the row |
| Channels.ChannelService.OpenChannel | packages/fth-x402-facilitator/src/services/channels.ts:21-48 | a new open channel with the whole deposit available |
| Channels.ChannelService.SpendChannel | packages/fth-x402-facilitator/src/services/channels.ts:58-118 | the four checks in order with their errors, then sequence, spent and available change together |
| Channels.ChannelService.CloseChannel | packages/fth-x402-facilitator/src/services/channels.ts:123-149 | closes exactly the open channels and changes nothing but the status |
| Channels.Interceptor.BuildProof | packages/fth-x402-sdk/src/x402.ts:111-152 | chooses the proof; the local sequence advances with every channel proof and with nothing else |
| Settlement.SettlementAdds | packages/fth-x402-facilitator/src/services/verify.ts:91-134 | one settlement adds one charge of the payer, or one channel spend, or nothing, of the invoice amount, and concerns no other invoice |
| Settlement.AcceptedIff | packages/fth-x402-facilitator/src/services/verify.ts:36-174 | a request is accepted iff signature or adapter, proof type, rate limit, status, expiry and nonce pass and the payer's unfrozen account or the open channel covers the invoice; then the invoice is paid and one receipt added, otherwise the whole state stays as it was |
| Settlement.AcceptedMoves | packages/fth-x402-facilitator/src/services/verify.ts:91-134 | an accepted credit proof takes exactly the invoice amount from the payer and records it; a channel proof moves it from available to spent and sets the sequence; an on-chain proof moves nothing |
| Settlement.InvoiceAnswers | packages/fth-x402-facilitator/src/services/verify.ts:36-62 | the codes of a missing, paid, expired, cancelled or overdue invoice |
| Settlement.ProofAnswers | packages/fth-x402-facilitator/src/services/verify.ts:64-134 | then the codes of a wrong nonce, the rate limit, an unknown or refused proof, and missing funds, in this order |
| Settlement.ReceiptsAreVetted | packages/fth-x402-facilitator/src/services/verify.ts:36-174 | every receipt of a run from nothing was issued by a request of that run that passed every check and could be paid at that point |
| Settlement.InvoiceKeepsTerms | packages/fth-x402-facilitator/src/services/invoices.ts:15-39 | an invoice keeps for good the nonce, amount and expiry it was created with |
| Settlement.ExpiryMeans | packages/fth-x402-facilitator/src/services/invoices.ts:72-77 | an expiry changes exactly the pending invoices that are overdue, and only their status |
| Settlement.RunOnce | packages/fth-x402-facilitator/src/services/verify.ts:36-174 | verifyPayment as one step, in any run with creation, expiry, ledger and channel operations: an invoice is paid iff it has exactly one receipt, which carries its amount and is backed by exactly one charge, one channel spend or no row according to its proof type |
| Settlement.StatusIsFinal | packages/fth-x402-facilitator/src/services/invoices.ts:55-77 | paid, expired and cancelled are absorbing, and no other field of an invoice changes |
| Settlement.Facilitator.CreateInvoice | packages/fth-x402-facilitator/src/services/invoices.ts:15-39 | a new pending invoice with a lifetime of 300 seconds unless given; a taken identifier or nonce is refused |
| Settlement.Facilitator.ExpireInvoices | packages/fth-x402-facilitator/src/services/invoices.ts:72-77 | expires exactly the overdue pending invoices |
| Settlement.SignedForItIff | packages/fth-x402-facilitator/src/services/verify.ts:236-250 | nothing compares the invoice a channel proof was signed for with the one it settles: in any run the two agree on all receipts iff every accepted request named its own invoice |
| Settlement.ByOwnerIff | packages/fth-x402-facilitator/src/services/verify.ts:236-250 | nothing compares the payer of a channel proof with the owner of the channel: in any run all spends are by owners iff every accepted request was |
| Settlement.UsedOnceIff | packages/fth-x402-facilitator/src/services/verifyTxHash.ts:43-108 | nothing records a used transaction: in any run no transaction, however its hash is spelled, backs two receipts iff every accepted request brought one without a receipt |
| Settlement.ChecksIgnoreThem | packages/fth-x402-facilitator/src/services/verify.ts:36-134 | the checks answer alike whatever invoice a channel proof names and whoever signed it, and as before after the same transaction has settled another invoice |
| Settlement.NoncesStayDistinct | db/migrations-x402/003_invoices.sql:7-7 | no two invoices of a run share a nonce |
| Settlement.CreditIsBound | packages/fth-x402-facilitator/src/services/verify.ts:224-231 | in every reachable state a credit proof signed for an invoice and its nonce settles no other invoice |
| Settlement.OneTransferTwoReceipts | packages/fth-x402-facilitator/src/services/verifyTxHash.ts:43-108 | from nothing: one transaction, in one spelling or two, two invoices, two receipts |
| Settlement.SpendForAnother | packages/fth-x402-facilitator/src/services/verify.ts:241-247 | from nothing: a channel spend signed for one invoice settles another, and one signed by a stranger spends the channel |
| Settlement.Facilitator.Settle | packages/fth-x402-facilitator/src/services/verify.ts:91-134 | the settlement of each proof type and its error; a transaction adapter keeps its own code |
| Settlement.Facilitator.ChargePayer | packages/fth-x402-facilitator/src/services/verify.ts:231-231 | charges the invoice amount or reports why not |
| Settlement.Facilitator.VerifyPayment | packages/fth-x402-facilitator/src/services/verify.ts:36-174 | all checks in order with their codes, then settlement, marking and receipt |
| Interleaving.RunMatched | packages/fth-x402-facilitator/src/services/verify.ts:91-156 | verifyPayment split at its waits, any interleaving: a charge of a payer and amount, a spend of a channel, sequence and amount, a receipt of a proof and amount is stored for an invoice as often as calls with that payer, proof and amount got that far |
| Interleaving.SerialIsAtomic | packages/fth-x402-facilitator/src/services/verify.ts:36-174 | the five steps of a call that nothing interrupts are the call as one step: same state, same answer |
| Interleaving.RunAccounted | packages/fth-x402-facilitator/src/services/verify.ts:36-156 | so the numbers of charges, spends and receipts of an invoice are those of the calls that got that far |
| Interleaving.SettlementsMatchReceipts | packages/fth-x402-facilitator/src/services/verify.ts:134-156 | once the calls of an invoice have ended, its receipts number its charges, spends and on-chain settlements together |
| Interleaving.RunSound | packages/fth-x402-facilitator/src/services/verify.ts:91-156 | over every interleaving the credit ledger is conserved and each channel shows the sum of its spends |
| Interleaving.PaidIffNotSwept | packages/fth-x402-facilitator/src/services/verify.ts:136-156 | over every interleaving: an invoice with a receipt is paid iff no expiry found it pending and overdue; once its calls have ended it is paid iff it has a receipt and was not swept |
| Interleaving.AtMostOnce | packages/fth-x402-facilitator/src/services/verify.ts:36-156 | if no call begins on an invoice while another has yet to mark it, an invoice has at most one charge or spend and at most one receipt; a paid one at rest has exactly one |
| Interleaving.OverlapSettlesIff | packages/fth-x402-facilitator/src/services/verify.ts:91-156 | in general, for proofs of all kinds: two calls of one invoice that have passed the checks both settle and leave two receipts iff each can settle, a shared payer covers both amounts, and spends of one channel come in sequence and fit its funds together |
| Interleaving.OverlapChargesIff | packages/fth-x402-facilitator/src/services/verify.ts:91-103 | in particular, two charges leave two charge rows for the invoice iff both can settle |
| Interleaving.OverlapChargesTwice | packages/fth-x402-facilitator/src/services/verify.ts:64-137 | from nothing: two overlapping calls of one invoice both charge the payer |
| Interleaving.ExpiryOvertakesMark | packages/fth-x402-facilitator/src/services/verify.ts:136-156 | from nothing: an expiry between settlement and marking leaves a settled, receipted invoice expired |
| StrKey.RoundTrip | packages/fth-x402-facilitator/src/adapters/stellar.ts:403-418 | the bytes of the concatenated five-bit groups of an encoding (section 6 of RFC 4648, no padding) are the encoded bytes |
| StrKey.ShiftHolds | packages/fth-x402-facilitator/src/adapters/stellar.ts:412-413 | shifting a group into the wrapping signed 32-bit accumulator keeps its low bits equal to the bits not yet emitted |
| StrKey.TakeByte | packages/fth-x402-facilitator/src/adapters/stellar.ts:414-417 | the unsigned shift and mask take exactly the next eight bits |
| StrKey.DecodeStrKey | packages/fth-x402-facilitator/src/adapters/stellar.ts:401-428 | for every string: nothing unless all characters are in the alphabet and there are at least 56, and then bytes 1 to 32 of the concatenated groups |
| StrKey.DecodeEncoded | packages/fth-x402-facilitator/src/adapters/stellar.ts:420-424 | the encoding of any 35 bytes decodes to bytes 1 to 32 |
| StrKey.Alphabet | packages/fth-x402-facilitator/src/adapters/stellar.ts:404-404 | the 32 characters A to Z, 2 to 7 in their order |
| Levenshtein.Compute | docs/assets/x407-assistant.js:72-81 | the filled table holds the edit distance of every pair of prefixes; the last entry is the distance |
| Levenshtein.Achieved | docs/assets/x407-assistant.js:72-81 | there is an insert/delete/substitute script of that cost |
| Levenshtein.Cheapest | docs/assets/x407-assistant.js:72-81 | no script is cheaper |
| Levenshtein.DistanceIsLeastCost | docs/assets/x407-assistant.js:72-81 | the distance is the least cost of a script, for all strings |
| Levenshtein.Symmetric | docs/assets/x407-assistant.js:79-79 | the distance is symmetric |
| Levenshtein.ZeroIffEqual | docs/assets/x407-assistant.js:79-79 | zero exactly on equal strings |
| Levenshtein.Compose | docs/assets/x407-assistant.js:79-79 | two scripts in a row can be fused into one that costs no more |
| Levenshtein.TriangleInequality | docs/assets/x407-assistant.js:79-79 | the triangle inequality |
| Units.ParseIsFloor | packages/fth-x402-facilitator/src/services/verifyTxHash.ts:138-142 | for every digits[.digits] string and number of decimals, parseUnits is floor(value * 10^decimals) |
| Units.SplitParts | packages/fth-x402-facilitator/src/services/verifyUnykornTxHash.ts:149-150 | whole part and fraction are the text before the first dot and from there to the next |
| Units.MatchMeans | packages/fth-x402-facilitator/src/services/verifyUnykornTxHash.ts:136-146 | the invoice amount with 18 decimals in UNY and 6 otherwise against hexadecimal units or text; nothing readable is no match |
| Units.FitsIsExact | packages/fth-x402-facilitator/src/services/verifyTxHash.ts:138-142 | it is exact iff no non-zero digit is dropped |
| Units.ParseMonotone | packages/fth-x402-facilitator/src/services/verifyUnykornTxHash.ts:148-152 | it is monotone in the denoted value |
| Units.FittingInvoice | packages/fth-x402-facilitator/src/services/verifyUnykornTxHash.ts:136-146 | when the invoice amount fits, comparing units is comparing amounts |
| Units.ComparisonIsFaithfulIff | packages/fth-x402-facilitator/src/services/verifyUnykornTxHash.ts:140-142 | the test "observed is at least the invoice" agrees with the amounts for every observed amount iff no non-zero digit of the invoice amount is dropped |
| Units.CutOffUnderpays | packages/fth-x402-facilitator/src/services/verifyUnykornTxHash.ts:136-146 | otherwise the invoice amount cut off at the decimals passes the test and is less than the invoice |
| Units.UnitComparisonIsFaithfulIff | packages/fth-x402-facilitator/src/services/verifyTxHash.ts:84-86 | the same for a transfer reported in units: the test is faithful for every number of units iff no non-zero digit of the invoice amount is dropped |
| Units.SevenDecimals | packages/fth-x402-facilitator/src/services/verifyUnykornTxHash.ts:136-146 | invoice amounts have seven decimals: in UNY a match, by text or by hexadecimal units, means the transfer covers the invoice; in a six-decimal asset when the seventh digit is zero |
| UnykornTx.ReferenceIsFound | packages/fth-x402-facilitator/src/services/verifyUnykornTxHash.ts:92-95 | the text searched for the invoice reference always contains it, since the proof's own invoice is part of the text |
| UnykornTx.AcceptedIff | packages/fth-x402-facilitator/src/services/verifyUnykornTxHash.ts:45-115 | so a UnyKorn transaction is accepted iff the rail fits, one of three lookups finds it, neither status nor receipt reports a failure, its height (status before receipt) is not too fresh, every sender and receiver that is reported (transaction before status) is the expected one up to case, and the value reported (transaction, then status) covers the invoice |
| UnykornTx.CodesMean | packages/fth-x402-facilitator/src/services/verifyUnykornTxHash.ts:45-88 | which refusal carries which code: rail, lookup, failure and confirmations in this order, and a mismatch for everything else |
| UnykornTx.ReferenceIsIgnored | packages/fth-x402-facilitator/src/services/verifyUnykornTxHash.ts:92-112 | and the answer is the same, code included, whatever reference, memo, input and claimed invoice |
| Routes.NothingToInterpolate | packages/fth-x402-core/src/helpers.ts:105-112 | with no values an interpolation gives the pattern back iff no parameter has a name that a plain object inherits |
| Routes.TokensSpell | packages/fth-x402-gateway/src/routes.ts:99-103 | the parameters found and the characters between them spell the pattern, and are leftmost and longest |
| Routes.TokensAreUnique | packages/fth-x402-gateway/src/routes.ts:99-103 | they are the only such parameters and literals that spell the pattern |
| Routes.NameAlphabet | packages/fth-x402-gateway/src/routes.ts:100-100 | a parameter name starts with a Latin letter or an underscore, and goes on with those and digits |
| Routes.MatchCaptures | packages/fth-x402-gateway/src/routes.ts:95-118 | a match gives slash-free non-empty values that fill the pattern to the path |
| Routes.CapturesMatch | packages/fth-x402-gateway/src/routes.ts:95-118 | on a plain pattern any such values are the ones the match finds |
| Routes.MatchThenInterpolate | packages/fth-x402-core/src/helpers.ts:105-112 | interpolating the matched parameters gives back the path iff parameters of one name captured one value (and __proto__ the text that replaces it); distinct names other than __proto__ always do |
| Routes.InterpolateThenMatch | packages/fth-x402-core/src/helpers.ts:105-112 | matching an interpolation of non-empty slash-free values gives back the parameters (all but __proto__, which cannot be assigned) |
| Routes.MatchRoute | packages/fth-x402-gateway/src/routes.ts:111-124 | the first route that matches, with the values it captures |
| Routes.RecordParams | packages/fth-x402-gateway/src/routes.ts:116-119 | the record of captured values, the last one of a name winning and __proto__ not assigned |
| Routes.CatalogIsPlain | packages/fth-x402-gateway/src/routes.ts:25-80 | every live route is of the supported form with distinct names other than __proto__ |
| Routes.ResourceOf | packages/fth-x402-gateway/src/x402.ts:37-37 | the resource of an invoice is the requested path, for every path of a live route |
| Buffers.MeterRunInSequence | packages/fth-metering/src/client.ts:52-98 | over every interleaving of emits, ticks, outcomes and shutdowns: acknowledged ++ in flight ++ buffer is the emitted sequence, with at most one batch in flight |
| Buffers.ShutdownDelivers | packages/fth-metering/src/client.ts:172-179 | whatever ticks and outcomes follow a shutdown, every remaining event is delivered iff none waits behind a flush already under way and the request under way or started, if any, succeeds |
| Buffers.EmitMeans | packages/fth-metering/src/client.ts:52-58 | an event goes to the back of the buffer; one that reaches the size limit sends the whole buffer iff no flush is under way |
| Buffers.LimitHoldsIff | packages/fth-metering/src/client.ts:52-98 | an idle client stays below the size limit throughout a run iff no flush ends with the limit reached by what was emitted meanwhile and, if it failed, by what it puts back |
| Buffers.TickAndShutdownMean | packages/fth-metering/src/client.ts:157-179 | a tick sends what waits while the timer runs; a shutdown stops the timer and sends it |
| Buffers.MeteringClient.EmitEvent | packages/fth-metering/src/client.ts:52-58 | appends when enabled and flushes at the size limit |
| Buffers.MeteringClient.StartFlush | packages/fth-metering/src/client.ts:64-68 | takes the whole buffer unless a flush is under way |
| Buffers.MeteringClient.FinishFlush | packages/fth-metering/src/client.ts:69-97 | acknowledges the batch or puts it back in front |
| Buffers.MeteringClient.Stop | packages/fth-metering/src/client.ts:176-182 | stops the timer and starts a last flush |
| Buffers.AuditRunComplete | packages/fth-guardian/src/core/audit-log.ts:50-64 | however audit flushes overlap and fail, stored, in-flight and buffered entries together are the recorded ones as multisets |
| Buffers.RecordMeans | packages/fth-guardian/src/core/audit-log.ts:50-64 | the 201st buffered entry sends all of them as one batch |
| Buffers.EndMeans | packages/fth-guardian/src/core/audit-log.ts:110-118 | a batch that ends goes to the back of the table or the front of the buffer, and touches no other batch |
| Buffers.AuditLimit | packages/fth-guardian/src/core/audit-log.ts:60-64 | while no batch is put back the buffer never holds more than 200 entries |
| Buffers.StoreOrdered | packages/fth-guardian/src/core/audit-log.ts:110-114 | storing a batch keeps the entries in order iff every batch started before it has ended |
| Buffers.RestoreOrdered | packages/fth-guardian/src/core/audit-log.ts:115-118 | putting a batch back keeps them in order iff every batch started after it has ended |
| Buffers.AuditRunOrdered | packages/fth-guardian/src/core/audit-log.ts:93-119 | however flushes overlap, the order is kept throughout a run iff every batch ends in its turn |
| Buffers.OverlapReorders | packages/fth-guardian/src/core/audit-log.ts:93-119 | overlapping flushes store two entries in the opposite order |
| Buffers.BuildInsert | packages/fth-guardian/src/core/audit-log.ts:100-108 | each place of the batch insert names five parameters, and each named parameter is that field of that entry |
| Buffers.AuditLog.RecordEntry | packages/fth-guardian/src/core/audit-log.ts:50-64 | appends and flushes above 200 |
| Buffers.AuditLog.StartFlush | packages/fth-guardian/src/core/audit-log.ts:93-95 | takes the whole buffer, whether or not another flush is under way |
| Buffers.AuditLog.FinishFlush | packages/fth-guardian/src/core/audit-log.ts:110-118 | stores the batch or puts it back in front |

## Left out

- HTTP, Fastify, Cloudflare workers, RPC clients, webhooks and authentication: plumbing over unseen services.
- SHA-512, Ed25519 and the Stellar, XRPL and EVM adapters: the hash is a function parameter, and the outcomes of
  signature, adapter and rate-limit checks come with each verification request.
- JavaScript floating point (`parseFloat`, `toFixed(7)`) in channels and treasury: exact whole units instead.
- SQL NUMERIC and 64-bit overflow: amounts are unbounded. The 32-bit cast of the velocity count is modelled.
- Settlement.RunOnce: claimed for calls of `verifyPayment` that run as one step and do not crash inside;
  `Interleaving` states what remains when they overlap. Conservation and channel facts hold per transaction.
- Interleaving.AtMostOnce: the condition on the schedule is one-way, since calls that overlap can still settle once
  when one of them is refused; `OverlapSettlesIff` says when two both go through.
- Receipts.RunKeeps: a failed insert is a write that never comes; its slice has left the queue and stays unstored.
- RateLimiter.WindowBound: a check's count and its insertion are one step; concurrent checks are not modelled.
- Risk.RollingBound: the window amount limit is taken to be non-negative and the count limit to fit its 32 bits;
  windows of different accounts share no state, so their locks are not modelled.
- Ledger.CacheDrift: `warmup` only fixes the opening cache; the per-account balance column, whose UPDATE ignores the
  asset of the leg, and the error text of a failed commit are not modelled.
- Journal amounts are non-negative by their constructors; amounts that arrive by deserialisation are not checked.
- Escrow is not tied to an earlier lock, as in the code, so no outstanding-escrow invariant is stated.
- Treasury.RecommendationIsFundable: evaluation and funding see one state; in between, the funding guards alone
  give the daily cap. An agent is identified with its wallet, and the worker's page of 200 agents is not modelled.
- Treasury.Converges: needs a non-negative balance, which `Credit.NeverOverdrawn` gives; the evaluation of an
  overdrawn agent throws.
- Units.ParseIsFloor: covers `digits[.digits]`; signs, spaces and hexadecimal text that BigInt also reads are not
  covered, and hexadecimal values arrive as numbers.
- Routes.CapturesMatch: patterns with regular-expression characters, or with a parameter that does not end its
  segment, are not covered. Strings are sequences of characters, not of UTF-16 units, here and in `Levenshtein`.
- StrKey: the checksum is not verified, as in the code.
- RateLimiter.ParseRateLimitIff: `parseInt` beyond 2^53 is exact here.
- UnykornTx.AcceptedIff: the four calls to the node are given by what they report; lower-casing is any function that
  keeps the empty string.
- Settlement.Facilitator.Settle: which transaction an adapter accepts, and with which code it refuses one, comes with
  the request.
- Routes.NothingToInterpolate: inherited functions are replaced by their text as V8 prints it.
- Settlement has no separate nonce table, as in the code; webhook and receipt-anchoring steps are left out.
- Risk.DecisionMeaning: scores are exact hundredths instead of binary fractions.
- Guardian daemons, L1, XRPL and oracle adapters, reconciliation, pricing tables, tier checks, exposure and list
  queries: I/O, constants or single-branch facts.
- Hardhat scripts, wallet UI, site and voice code.
