# A verified model of the market backend

This Dafny project models the core of a backend for tokenized assets: the exchange ledger and its matching engine, the cross-chain swap saga, the market lifecycle with its two delivery channels, and the arithmetic they rest on. `dafny verify dfyconfig.toml` checks all of it.

## How it is built

| files | what they hold |
|---|---|
| Sums, Amounts, Ledger | finite sums; quote, fee and conversion arithmetic; balance rows and their guarded writes |
| Exchange, Matching, OrderBook | rows and operations of the exchange as functions on a database state; book query, trade, loop and job; what the query returns |
| Trades, Solvency, Jobs, Runs | one trade account by account; the solvency invariant; the loop invariant; runs of any operations in any order |
| Overdraft | exactly when one trade or one late swap fault leaves a lock short |
| Allocation, Fills, Greedy | the loop as an allocation within the taker's lock; whole jobs by their shares; price optimality |
| Agreement, StaleFills, Guards, Counterexamples | the code as written against the code as documented; stale fill counts; when every step of every run stays sound; inputs on which it does not |
| Conservation, Leaks, Crossing, Counts, Residue | conservation per token, and exactly when it holds; the uncrossed book; trade counts; lock residue |
| Outcomes | what each operation of the exchange writes, column by column, and the volume of a job |
| SwapSaga | the lock of a swap over any sequence of attempts |
| Store | class ExchangeStore: the services over tables and a balance cache, in place, each method refining its function |
| Depth, RateLimiter | the aggregated order book; the token bucket and its class |
| Markets, Lifecycle, Handlers, Redelivery, MarketStore | market handlers and deliveries; what holds of every run; what each handler writes; repeated and reordered delivery; class MarketStore |

Operations are functions from one state to the next, about which the theorems are stated. The classes `ExchangeStore`, `MarketStore` and `RateLimiter` carry out the same operations statement by statement on mutable fields: every method ensures that the new state is the function of the old one, `ExchangeStore` keeps its cache coherent and `MarketStore` keeps and uses the lifecycle of every market. A row number stands for an id; rows are only appended, so smaller means created earlier. Amounts and prices are naturals.

## Where the code parts from its documentation

The model follows the code. A `Mode` value says which of two readings of a trade is meant: `AS_WRITTEN` or `AS_DOCUMENTED`; `Store` is as written.

- **Atomic trades.** marketBackend/ARCHITECTURE.md:698-709 promises one PostgreSQL transaction per trade. The worker sends BEGIN, COMMIT and ROLLBACK on a client of its own (marketBackend/src/infra/queue/matchingWorkerHandler.ts:335-338), while the repositories write through the pool, so nothing is rolled back. `Agreement.RollbackShowsIff` says when this shows, `Conservation.UnguardedTradeConservesIff` when a trade, `Leaks.JobConservesIff` when a job unbalances the books, `Overdraft.TradeKeepsSolventIff` when it costs a lock.
- **Fill counts.** A trade computes the taker's new fill count from the snapshot the job started with (marketBackend/src/infra/queue/matchingWorkerHandler.ts:394-407), so of several fills only the last is stored. `StaleFills.StaleFillShowsIff` and `StaleFills.StaleJobSolventIff` say when this shows and what it costs.
- **MARKET BUY** orders lock at their own price and pay the ask's. `Overdraft.TradeKeepsSolventIff` says when one trade of theirs leaves a lock short, `Guards.JobSoundIff` when a whole job does.
- **Swap requests** lock before a quote that may throw, so small amounts stay locked without a swap: `SwapSaga.FailedRequestStrandsIff`.
- **Completed swaps** re-enter the catch block when the audit row or the event after them fails: `SwapSaga.SagaConsumesOnceIff`, `SwapSaga.LateFailurePaysTwice`, and `Overdraft.LateFaultSoundIff` for when that leaves a lock short.
- **Inactive pairs.** A job on an inactive pair cancels its order without unlocking (marketBackend/src/infra/queue/matchingWorkerHandler.ts:139-149); the lock stays behind as slack.
- **Failed deployments** go back to approved, where the retry of the job skips (marketBackend/src/infra/queue/tokenDeploymentHandler.ts:46-52), and the event they would log is not among those the table accepts (marketBackend/src/infra/database/migrations/003_market_rwa_lifecycle.ts:66-75): `Lifecycle.RetriesAreIdle`.
- **Polled decisions.** The poller goes by the event type and only logs; the webhook goes by the payload and decides. An event polled first is recorded and its decision lost: `Redelivery.ChannelOrderMattersIff`.
- **Pause and archive** look at no status, and nothing resumes a paused market: `Lifecycle.ClosedStaysClosed`.
- **The buyer's fee** is a quote amount charged in base units, which is what limits prices to 400 * 10^18.
- **The order book in Redis** is never filled, because an order holds a bigint that does not serialize; the database query is what runs. The statuses are those of marketBackend/src/types/trading.ts:3; migration 002 lacks PENDING_MATCH.

## Model

| member | source | states |
|---|---|---|
| Guards.RunStaysSoundIff | marketBackend/src/infra/queue/matchingWorkerHandler.ts:361-407 | Solvency over every run, in every mode, as written and as documented, MARKET BUY orders and late swap faults included: within the price cap the exchange stays sound at every point of the run (each account's locked balance covers what its live orders and unfinished swaps owe, each fill count is the sum of the order's trades and at most its quantity, FILLED means fully filled) exactly when every step meets a guard read off the state before it |
| Guards.StepSoundIff | marketBackend/src/services/tradingService.ts:102-114 | The same of one step, from any sound state: submissions, cancels, swap requests and pair switches need nothing; jobs and late faults need their guards |
| Guards.JobSoundIff | marketBackend/src/infra/queue/matchingWorkerHandler.ts:104-232 | A matching job leaves a sound exchange sound exactly when, before it, the taker has the funds for what the fetched orders would give or refusals are undone, slack for what it overpays, and at most one positive share or carried fills |
| Guards.LimitJobSoundIff | marketBackend/src/infra/queue/matchingWorkerHandler.ts:169-224 | For anything but a MARKET BUY: exactly when fills are carried, or the second order fetched is out of reach, or the first fills the taker |
| Guards.JobAgreesIff | marketBackend/src/infra/queue/matchingWorkerHandler.ts:335-407 | A job as written and as documented end in the same state exactly when the taker's lock covers what it wants and it takes at most one fill |
| Guards.RunAgreesIff | marketBackend/src/infra/queue/matchingWorkerHandler.ts:175-194 | A run that is sound as documented passes through the same states as written exactly when every job in it agrees in that sense |
| Guards.AsWrittenIsAsDocumented | marketBackend/src/infra/queue/matchingWorkerHandler.ts:175-194 | A run that meets the guards of the code as written is the run as documented, and sound |
| Runs.RunKeepsSound | marketBackend/src/infra/queue/matchingWorkerHandler.ts:361-407 | At any prices, with atomic trades and carried fills: any run without a job whose taker is a MARKET BUY and without a fault after a swap completed keeps soundness |
| Runs.ExchangeStaysSound | marketBackend/src/infra/queue/matchingWorkerHandler.ts:361-407 | The same of runs that start from users' deposits and no orders |
| Runs.SubmitKeepsSound | marketBackend/src/services/tradingService.ts:80-114 | A submission that passes or fails at any check, including one refused after its lock was taken, keeps soundness; MARKET BUY included |
| Runs.CancelKeepsSound | marketBackend/src/services/tradingService.ts:155-194 | A cancel by anybody, at any status, keeps soundness |
| Runs.RequestSwapKeepsSound | marketBackend/src/services/swapService.ts:62-121 | A swap request keeps soundness whether or not its quote throws after the lock |
| Runs.SwapAttemptSoundIff | marketBackend/src/services/swapService.ts:155-311 | A swap attempt keeps soundness exactly unless it fails after completing and nothing absorbs that |
| Jobs.LoopFrame | marketBackend/src/infra/queue/matchingWorkerHandler.ts:178-207 | In any mode and from any state the loop writes only fill counts and statuses, and only of the taker and the fetched makers |
| Solvency.TradeSlack | marketBackend/src/infra/queue/matchingWorkerHandler.ts:361-407 | The exact effect of an executed trade on every account's free locked funds: only the buyer's quote account moves, by the debt the order sheds less the amount paid; the same for MARKET BUY orders |
| Solvency.TradeNotRefused | marketBackend/src/infra/queue/matchingWorkerHandler.ts:363-391 | A trade selected for anything but a MARKET BUY, between sound rows within the price cap, passes every balance CHECK |
| Solvency.TradeKeepsBooks | marketBackend/src/infra/queue/matchingWorkerHandler.ts:348-407 | An executed trade on current rows (with stale counts, the first of a job) keeps every fill count equal to the sum of the order's trades and every row well formed |
| Solvency.TradeKeepsSound | marketBackend/src/infra/queue/matchingWorkerHandler.ts:328-407 | With rollback or within the price cap, a trade selected for anything but a MARKET BUY keeps soundness, executed or refused |
| Overdraft.TradeKeepsSolventIff | marketBackend/src/infra/queue/matchingWorkerHandler.ts:335-391 | One attempted trade, executed, undone or left half-written, keeps a solvent exchange solvent exactly when the buyer's slack absorbs what it overpays, or the seller's and the buyer's what a refused trade has already taken |
| Overdraft.LateFaultSoundIff | marketBackend/src/services/swapService.ts:243-311 | A fault after a swap completed keeps a sound exchange sound exactly when the account has slack for a second claim of the amount, or the attempt was the last and too little is locked to unlock twice |
| Trades.TradeRefusedIff | marketBackend/src/infra/queue/matchingWorkerHandler.ts:348-391 | A trade is refused exactly when price or quantity is not positive or one of three balances is short; the seller's proceeds always cover the seller's fee |
| Trades.TradeMoves | marketBackend/src/infra/queue/matchingWorkerHandler.ts:361-391 | What one trade does to every account, correct when buyer and seller are one user |
| StaleFills.StaleFillShowsIff | marketBackend/src/infra/queue/matchingWorkerHandler.ts:394-407 | In a sound, capped state the stale fill count shows exactly when the job has two positive shares, that is when the second order fetched is within the price and the first does not fill the taker; of a MARKET BUY whose lock does not cover its job only where refusals are undone, by its shares |
| StaleFills.JobStores | marketBackend/src/infra/queue/matchingWorkerHandler.ts:394-407 | Of its shares a job stores the last alone as written, and the sum with carried fills; without rollback not of a MARKET BUY whose lock does not cover its job |
| StaleFills.StaleJobSolventIff | marketBackend/src/infra/queue/matchingWorkerHandler.ts:394-407 | What it costs: a job with stale counts keeps a sound exchange solvent exactly when what the stored row claims and what the shares cost, both read off the fetched rows, fit the slack and the claim before the job; without rollback not of a MARKET BUY whose lock does not cover its job |
| StaleFills.FilledIsAbsorbed | marketBackend/src/infra/queue/matchingWorkerHandler.ts:209-215 | A limit order that its job fills costs nothing there |
| Agreement.StaleFillDiffers | marketBackend/src/infra/queue/matchingWorkerHandler.ts:394-407 | From any state, the stale count changes nothing but the taker's stored fill count, which is never too high |
| Agreement.RollbackShowsIff | marketBackend/src/infra/queue/matchingWorkerHandler.ts:335-338 | Whether a trade is undone shows exactly when its numbers are positive and a balance is short |
| Counterexamples.StaleFillLosesSolvency | marketBackend/src/infra/queue/matchingWorkerHandler.ts:394-407 | Two asks and a bid for three units: after one job as written the bid's lock does not cover it and its cancel is refused |
| Counterexamples.MarketBuyLosesSolvency | marketBackend/src/services/tradingService.ts:102-107 | A MARKET BUY that meets an ask above its own price spends another order's lock, in any mode |
| Counterexamples.LateFaultLosesSolvency | marketBackend/src/services/swapService.ts:243-296 | One swap whose attempt fails after completing leaves its claim without a lock |
| Conservation.RunWealth | marketBackend/src/infra/queue/matchingWorkerHandler.ts:363-391 | The books of any run in any mode: per token, holdings plus fees taken plus net swap outflow changes by exactly what refused trades and late swap faults leak, each trade's and attempt's leak read off the rows as that trade or attempt finds them; without rollback, for pairs of two distinct tokens |
| Leaks.JobConservesIff | marketBackend/src/infra/queue/matchingWorkerHandler.ts:335-391 | From a sound, capped state and in any mode, a matching job conserves every token exactly when refusals are undone or, before the job, the taker's lock covers what the fetched orders would give |
| Leaks.StepConservesIff | marketBackend/src/services/swapService.ts:243-311 | The same of one step: a swap attempt conserves exactly unless it fails after completing a swap that moves something; every other step always conserves |
| Leaks.RunConservesIff | marketBackend/src/infra/queue/matchingWorkerHandler.ts:363-391 | A capped run in any mode that is sound before every step conserves every token all along exactly when every step meets that guard, read off the state before it |
| Conservation.RunConserves | marketBackend/src/infra/queue/matchingWorkerHandler.ts:363-391 | It is constant over any run with atomic trades in which every unfinished swap has its source row and no attempt fails after completing; self-trades, stranded locks, MARKET BUY and stale fills included |
| Conservation.SwapAttemptWealth | marketBackend/src/services/swapService.ts:438-467 | The exact effect of any swap attempt on the wealth of every token |
| Conservation.LateFaultConservesIff | marketBackend/src/services/swapService.ts:243-311 | A fault after completion conserves every token exactly when the swap moved nothing |
| Conservation.TradeConserves | marketBackend/src/infra/queue/matchingWorkerHandler.ts:363-391 | With rollback, one attempted trade moves nothing but the two fees out of the accounts |
| Conservation.UnguardedTradeLeaks | marketBackend/src/infra/queue/matchingWorkerHandler.ts:476-478 | The exact amount by which an attempted trade changes the wealth of each token when nothing is rolled back |
| Conservation.UnguardedTradeConservesIff | marketBackend/src/infra/queue/matchingWorkerHandler.ts:335-338 | As written a trade conserves every token exactly when its balances suffice, or the seller's lock is short and the fee rounds to zero |
| Counterexamples.RefusedTradeCreatesQuote | marketBackend/src/infra/queue/matchingWorkerHandler.ts:363-391 | In a sound state of two orders, a trade refused at the buyer's payment: one base unit lost and two quote units created |
| Counterexamples.UncoveredJobCreatesQuote | marketBackend/src/infra/queue/matchingWorkerHandler.ts:104-232 | The job of that MARKET BUY as written: a sound, capped state in which the lock does not cover the job, which loses the same unit, creates the same two and ends unsound |
| Ledger.PostAddsNet | marketBackend/src/infra/queue/matchingWorkerHandler.ts:363-391 | Consecutive read-then-overwrite updates add their net change to every account, also when they meet in one account |
| Ledger.PostMovesSupply | marketBackend/src/infra/database/repositories/tokenRepository.ts:61-80 | They move the supply of a token by the sum of the changes to its accounts |
| OrderBook.BookSpec | marketBackend/src/infra/database/repositories/tradingRepository.ts:158-166 | The book query returns exactly the OPEN and PARTIAL orders of one side of a pair, each once, price first and creation second |
| OrderBook.FetchSpec | marketBackend/src/infra/database/repositories/tradingRepository.ts:152-168 | With its LIMIT: nothing left out precedes anything returned, and nothing is left out of a book of at most a hundred |
| OrderBook.FetchInTurn | marketBackend/src/infra/database/repositories/tradingRepository.ts:152-168 | The same column by column: OPEN or PARTIAL rows of the pair and side, at most a hundred, bids from the highest price and asks from the lowest, a missing price first among bids and last among asks, the earlier row first at one price |
| Allocation.AllocateIsWaterfall | marketBackend/src/infra/queue/matchingWorkerHandler.ts:178-207 | The loop's shares in closed form: each maker gets what the offers ahead of it leave, up to what it has |
| Allocation.AllocateTotal | marketBackend/src/infra/queue/matchingWorkerHandler.ts:178-207 | The volume is the smaller of the taker's remainder and the total on offer |
| Allocation.AffordIsAllocateIff | marketBackend/src/infra/queue/matchingWorkerHandler.ts:363-391 | Passing over what the lock cannot pay changes nothing exactly when the lock pays for the whole allocation |
| Allocation.LoopFollowsShares | marketBackend/src/infra/queue/matchingWorkerHandler.ts:178-207 | The break-and-continue loop with carried fills trades exactly the shares that the taker's lock can pay for, at the makers' prices, and touches no other row |
| Allocation.LoopSlack | marketBackend/src/infra/queue/matchingWorkerHandler.ts:363-391 | What it leaves of the taker's slack: the debt shed less the prices paid |
| Fills.LimitLockCovers | marketBackend/src/services/tradingService.ts:102-107 | The lock of anything but a MARKET BUY pays for whatever its job wants |
| Fills.JobTrades | marketBackend/src/infra/queue/matchingWorkerHandler.ts:169-207 | The trades a whole job inserts, and the fills it records for makers, are the shares of what it fetched; fills carried or stale; without rollback not of a MARKET BUY whose lock does not cover its job |
| Fills.JobFillsAreShares | marketBackend/src/infra/queue/matchingWorkerHandler.ts:178-194 | The number of trades a job executes is the number of its positive shares; without rollback not of a MARKET BUY whose lock does not cover its job |
| Fills.JobLeaves | marketBackend/src/infra/queue/matchingWorkerHandler.ts:169-224 | With carried fills, a job keeps fill counts exact and every account solvent but perhaps the taker's, whose slack it leaves as the shares say; without rollback not of a MARKET BUY whose lock does not cover its job |
| Greedy.StrictPriority | marketBackend/src/infra/queue/matchingWorkerHandler.ts:178-188 | A maker is filled only after every maker ahead of it has been filled completely |
| Greedy.ExchangeArgument | marketBackend/src/infra/queue/matchingWorkerHandler.ts:178-194 | No other shares beat shares that are separated by a price, at that price for each unit of volume |
| Greedy.AllocationIsOptimal | marketBackend/src/infra/queue/matchingWorkerHandler.ts:178-194 | No other way of taking the same volume from the list is better for the taker |
| Greedy.JobIsPriceOptimal | marketBackend/src/infra/queue/matchingWorkerHandler.ts:175-194 | A BUY pays no more, a SELL receives no less, than under any other way of taking the same volume from the fetched orders; in any mode, a MARKET BUY if its lock pays for what it wants |
| Outcomes.JobVolume | marketBackend/src/infra/queue/matchingWorkerHandler.ts:178-207 | The volume of a job, in any mode: what the order lacks, or what the fetched rows at or within its price have left, whichever is less; for a MARKET order every priced row counts |
| Outcomes.MarketSellVolume | marketBackend/src/infra/queue/matchingWorkerHandler.ts:314-326 | A MARKET SELL trades against every fetched bid until it is filled |
| Outcomes.FetchedRows | marketBackend/src/infra/queue/matchingWorkerHandler.ts:169-176 | The rows a job fetches: open or partial orders of its pair and the other side, as they stood, up to a hundred; any other such order comes after all of them |
| Outcomes.JobStatus | marketBackend/src/infra/queue/matchingWorkerHandler.ts:151-231 | The order after its job: FILLED when the volume is all it lacked, PARTIAL when it has traded now or before, OPEN otherwise; the rest of its row stands |
| Outcomes.IdleJobOutcome | marketBackend/src/infra/queue/matchingWorkerHandler.ts:112-149 | A job on a missing order or pair is refused, on a finished order does nothing, on an inactive pair cancels the order and leaves its lock |
| Outcomes.TradeOutcome | marketBackend/src/infra/queue/matchingWorkerHandler.ts:348-407 | The row a trade inserts, at the maker's price, with buyer, seller and fees, and the two order rows it fills |
| Outcomes.SubmitOutcome | marketBackend/src/services/tradingService.ts:72-114 | Exactly when a submission succeeds; it then adds one row and moves exactly its amount from available to locked in one account, and refused it leaves the exchange as it was |
| Outcomes.SubmittedRow | marketBackend/src/services/tradingService.ts:102-114 | The stored order has the user, pair, side, kind, price and quantity of the input, waits for its match and is unfilled |
| Outcomes.CancelOutcome | marketBackend/src/services/tradingService.ts:155-194 | Exactly the owner cancels exactly an OPEN or PARTIAL order; what is left of it goes back from locked to available, and only its status changes |
| Outcomes.RefusedCancelIsIdle | marketBackend/src/services/tradingService.ts:155-194 | A refused cancel leaves the exchange as it was, from any state |
| Crossing.JobRows | marketBackend/src/infra/queue/matchingWorkerHandler.ts:209-224 | Where every row stands after a job: makers' shares recorded, the taker FILLED exactly when enough was in reach and resting otherwise; in any mode; not of a MARKET BUY whose lock does not cover its job |
| Crossing.JobKeepsUncrossedIff | marketBackend/src/infra/queue/matchingWorkerHandler.ts:169-224 | From an uncrossed book a limit order's job ends uncrossed exactly when what it fetched could fill it or no limit order beyond the hundredth is within its price; in any mode |
| Crossing.FullFetchKeepsUncrossed | marketBackend/src/infra/queue/matchingWorkerHandler.ts:169-224 | A job that sees every opposing order never crosses a book, MARKET takers and other pairs included; in any mode |
| Crossing.RunKeepsUncrossed | marketBackend/src/infra/queue/matchingWorkerHandler.ts:104-167 | No run in any mode crosses a book as long as its steps meet their guards and no job meets more than a hundred opposing orders |
| Crossing.CascadeIsQuiet | marketBackend/src/infra/queue/matchingWorkerHandler.ts:488-497 | In an uncrossed book a resting limit order schedules no limit order for re-matching |
| Crossing.RematchesSpec | marketBackend/src/infra/queue/matchingWorkerHandler.ts:488-497 | The orders queued for re-matching are the best ten of the fetched orders that could trade with this one, or all of them when there are fewer |
| Outcomes.RematchRows | marketBackend/src/infra/queue/matchingWorkerHandler.ts:488-497 | Of the opposing orders it would fetch, the first ten in book order that take any price, or whose own price and the resting one meet |
| Counterexamples.LongBookEndsCrossed | marketBackend/src/infra/queue/matchingWorkerHandler.ts:243-243 | Any number of asks above a hundred and one bid for them all: the job leaves the book crossed |
| Counts.FinishedStaysFinished | marketBackend/src/infra/queue/matchingWorkerHandler.ts:120-131 | FILLED, CANCELLED and REJECTED orders are never written again, in any run and any mode |
| Counts.TradesAtMostFilled | marketBackend/src/infra/queue/matchingWorkerHandler.ts:178-194 | In any run and any mode at most as many trades are executed as orders are newly FILLED |
| Counts.RowsAreFills | marketBackend/src/infra/queue/matchingWorkerHandler.ts:348-359 | With rollback the trades executed are the rows inserted |
| Counts.TradeLowersUnfilled | marketBackend/src/infra/queue/matchingWorkerHandler.ts:393-407 | A trade on current rows (with stale counts, the first of a job) takes its positive quantity off both its orders and no other, and fills one of them when it is as large as it can be |
| Residue.LockCoversPaymentsAndRefund | marketBackend/src/services/tradingService.ts:186-192 | In every sound state a limit BUY's lock less payments less refund is nonnegative, and at most the number of prints when all printed at its own price |
| Residue.ResidueOfTrades | marketBackend/src/infra/queue/matchingWorkerHandler.ts:554-556 | The floor arithmetic behind it, for any list of trades |
| Residue.CancelFreesDebt | marketBackend/src/services/tradingService.ts:186-194 | In a sound state the owner's cancel of a resting order is never refused, frees exactly what the order owed and moves no other account |
| Residue.CancelUndoesSubmit | marketBackend/src/services/tradingService.ts:155-194 | Submitting, finding no fetched order within the price and cancelling restores every balance; in any mode, from any state, for any kind of order |
| Residue.CancelUndoesRefused | marketBackend/src/infra/queue/matchingWorkerHandler.ts:476-478 | With rollback the same holds when every trade the job attempted was refused |
| SwapSaga.SagaConsumesOnceIff | marketBackend/src/services/swapService.ts:221-311 | After any attempts the lock is intact and the swap unfinished, spent once and COMPLETED, or returned once and FAILED, exactly when the attempt that ended it did not fail after marking it completed |
| SwapSaga.SagaFinishes | marketBackend/src/services/swapService.ts:283-310 | If only the bridge can fail, the allowed attempts finish the swap |
| SwapSaga.FinishedAbsorbs | marketBackend/src/services/swapService.ts:164-170 | A finished swap is never changed again, nor any balance by its job |
| SwapSaga.LateFailurePaysTwice | marketBackend/src/services/swapService.ts:243-279 | An audit or publishing failure after completion requeues the swap and the next attempt spends and credits a second time |
| SwapSaga.SoundFunds | marketBackend/src/services/swapService.ts:438-455 | A sound exchange holds the lock of every unfinished swap |
| SwapSaga.QuotedSwapSettles | marketBackend/src/services/swapService.ts:346-382 | A server-quoted swap from end to end: completed it costs the amount and credits it less exactly its fees, rescaled; an attempt that ends it otherwise gives every balance back, and one that does not leaves the request as it was |
| SwapSaga.QuotedSwapInNumbers | marketBackend/src/services/swapService.ts:346-382 | From 6 to 18 decimals the credit is the net amount times 10^12 |
| Outcomes.RequestOutcome | marketBackend/src/services/swapService.ts:62-121 | Exactly when a swap request succeeds; it then adds one row and locks exactly its amount |
| Outcomes.RequestedRow | marketBackend/src/services/swapService.ts:346-382 | The stored swap: the input's user, tokens and amount, queued, with the caller's quote or the rescaled amount less its three fees |
| Outcomes.AttemptStatus | marketBackend/src/services/swapService.ts:155-311 | The status an attempt leaves, by its event and number; no other row of orders, trades or swaps changes |
| SwapSaga.FailedRequestStrandsIff | marketBackend/src/services/swapService.ts:89-96 | A refused request leaves a lock behind exactly when a server quote is asked for 1 to 1003 units that the account has |
| Store.ExchangeStore.GetUserBalance | marketBackend/src/services/tokenService.ts:144-155 | Reads through the cache return the row, present or missing |
| Store.ExchangeStore.UpdateBalanceInternal | marketBackend/src/services/tokenService.ts:161-171 | Overwrites row and cache, or neither when the CHECK refuses |
| Store.ExchangeStore.LockBalanceForOrder | marketBackend/src/infra/database/repositories/tokenRepository.ts:82-104 | Guarded in-place lock, written through |
| Store.ExchangeStore.UnlockBalanceFromOrder | marketBackend/src/infra/database/repositories/tokenRepository.ts:106-128 | Guarded in-place unlock, written through |
| Store.ExchangeStore.Evict | marketBackend/src/services/tokenService.ts:235-248 | Expiry of a cached entry keeps every other one equal to its row |
| Store.ExchangeStore.PostThroughCache | marketBackend/src/infra/queue/matchingWorkerHandler.ts:364-369 | A cached read-then-overwrite acts as one in-place addition |
| Store.ExchangeStore.PostInTurn | marketBackend/src/infra/queue/matchingWorkerHandler.ts:363-391 | Four of them in turn stop at the first refusal, with the earlier ones kept |
| Store.ExchangeStore.ExecuteTrade | marketBackend/src/infra/queue/matchingWorkerHandler.ts:328-407 | The trade as written, statement by statement, refines the trade function |
| Store.ExchangeStore.ExecuteMatching | marketBackend/src/infra/queue/matchingWorkerHandler.ts:175-207 | The loop refines the recursive matching function |
| Store.ExchangeStore.ProcessMatchingJob | marketBackend/src/infra/queue/matchingWorkerHandler.ts:104-232 | The job refines the matching job function, cache coherent |
| Store.ExchangeStore.ScheduleOpposingMatches | marketBackend/src/infra/queue/matchingWorkerHandler.ts:488-519 | The filter and the cut at ten refine the re-match function |
| Store.ExchangeStore.SubmitOrder | marketBackend/src/services/tradingService.ts:72-114 | Refines submission with its order of checks, lock and insert |
| Store.ExchangeStore.CancelOrder | marketBackend/src/services/tradingService.ts:155-194 | Refines cancellation up to the status write |
| Store.ExchangeStore.RequestSwap | marketBackend/src/services/swapService.ts:62-121 | Refines the swap request: lock, then quote, then rows |
| Store.ExchangeStore.SettleBalances | marketBackend/src/services/swapService.ts:438-467 | Refines settlement, with row reads and cached writes |
| Store.ExchangeStore.FailSwap | marketBackend/src/services/swapService.ts:469-489 | Refines failure, a refused unlock swallowed |
| Store.ExchangeStore.ProcessSwapJob | marketBackend/src/services/swapService.ts:155-311 | Refines one swap attempt with its catch block |
| Depth.AggregateOrderBook | marketBackend/src/services/tradingService.ts:428-448 | One level per quoted price, holding the unfilled quantity and number of the orders at that price, nothing lost overall; sorted orders give strictly improving levels |
| Depth.LevelsFaithful | marketBackend/src/services/tradingService.ts:428-448 | The same of the level map as a function of the list |
| RateLimiting.GrantsBounded | marketBackend/src/lib/rateLimiter.ts:19-34 | From any bucket state, whatever the clock reads up to a time, grants are at most the capacity and one for each whole interval since the last refill |
| RateLimiting.BoundIsReached | marketBackend/src/lib/rateLimiter.ts:19-34 | A burst followed by one try per interval reaches the bound |
| RateLimiting.TokensAccounted | marketBackend/src/lib/rateLimiter.ts:19-34 | Grants and tokens left are paid for by tokens held and whole intervals passed |
| RateLimiting.GrantedIff | marketBackend/src/lib/rateLimiter.ts:22-33 | A try is refused exactly when the bucket is empty and no interval has passed or the capacity is zero |
| RateLimiting.PauseRefills | marketBackend/src/lib/rateLimiter.ts:19-34 | After a pause a burst is granted exactly the tokens left and one for each whole interval, up to the capacity |
| RateLimiting.RateLimiter.constructor | marketBackend/src/lib/rateLimiter.ts:5-11 | Starts full, refilled now |
| RateLimiting.RateLimiter.TryConsume | marketBackend/src/lib/rateLimiter.ts:19-34 | Refines the bucket function; tokens stay between 0 and the capacity |
| RateLimiting.RateLimiter.Acquire | marketBackend/src/lib/rateLimiter.ts:13-17 | Stops at the first granted try and consumes one token |
| Amounts.FeeSplit | marketBackend/src/infra/queue/matchingWorkerHandler.ts:558-563 | Splitting a fill at one price never raises the total fee |
| Amounts.QuoteSplit | marketBackend/src/infra/queue/matchingWorkerHandler.ts:554-556 | Splitting a fill loses at most one unit of quote and gains none |
| Amounts.BuyerCreditNonNegativeIff | marketBackend/src/infra/queue/matchingWorkerHandler.ts:386-391 | The buyer's base credit is nonnegative for all quantities exactly up to the price 400 * 10^18 |
| Amounts.QuoteIsFloor | marketBackend/src/infra/queue/matchingWorkerHandler.ts:554-563 | A quote is the product of quantity and price over 10^18, rounded down; at 10^18 it is the quantity |
| Amounts.FeeIsQuarterPercent | marketBackend/src/infra/queue/matchingWorkerHandler.ts:554-563 | A fee is a four-hundredth of the quote, rounded down |
| Amounts.QuoteExistsIff | marketBackend/src/services/swapService.ts:338-360 | A server quote exists exactly above 1003 units |
| Amounts.QuoteFeeRates | marketBackend/src/services/swapService.ts:346-352 | The three fees: 25 and 15 ten-thousandths, rounded down, and a flat 1000 |
| Amounts.NetAlmostMonotone | marketBackend/src/services/swapService.ts:346-362 | Paying more never nets more than one unit less; 1999 and 2000 attain it |
| Amounts.ConvertRoundTrip | marketBackend/src/services/swapService.ts:518-532 | Rescaling up and back is exact; down and back never gains and loses less than one coarse unit |
| Amounts.ConvertStaged | marketBackend/src/services/swapService.ts:518-532 | Rescaling in two stages is rescaling at once, down and up |
| Amounts.ConvertOneDecimal | marketBackend/src/services/swapService.ts:518-532 | One decimal more multiplies by ten, one less divides by ten and rounds down |
| Amounts.ConvertSixEighteen | marketBackend/src/services/swapService.ts:518-532 | Between 6 and 18 decimals the factor is 10^12; down and back loses less than 10^12 |
| Amounts.WrapRoundTrip | marketBackend/src/services/wrapperService.ts:316-326 | Wrapping and unwrapping at r hundredths never gains, loses at most 100/r rounded up, and is exact when 100 divides r |
| Amounts.WrapRates | marketBackend/src/services/wrapperService.ts:316-326 | At r hundredths, 100 tokens are worth r, both ways, and amounts in between round down |
| Lifecycle.LifecycleSafety | marketBackend/src/services/marketService.ts:174-294 | In every reachable state a market has at most one applied decision; an active one has approver, contract and its four milestones in log order; a rejected one no contract; deployment calls never exceed activation starts |
| Lifecycle.RunKeepsOk | marketBackend/src/services/marketService.ts:71-359 | The inductive lifecycle invariant, kept by any interleaving of handlers and deliveries |
| Lifecycle.ClosedStaysClosed | marketBackend/src/services/marketService.ts:318-359 | No handler brings a rejected, paused or archived market back or changes its contract |
| Lifecycle.RetriesAreIdle | marketBackend/src/infra/queue/tokenDeploymentHandler.ts:46-52 | After a failed deployment the market is approved and no number of retries of the job changes anything |
| Redelivery.RedeliveryIsIdle | marketBackend/src/infra/database/repositories/processedEventRepository.ts:32-72 | Any run ends as the run that keeps only the first recorded delivery of each event, failed and skipped ones included |
| Redelivery.WebhookDecidesIff | marketBackend/src/controllers/webhookController.ts:184-279 | Exactly when a webhook delivery changes a market, and what it then decides |
| Redelivery.PollsNeverDecide | marketBackend/src/services/eventListenerService.ts:109-162 | Polling alone never changes a market |
| Redelivery.ChannelOrderMattersIff | marketBackend/src/services/eventListenerService.ts:109-144 | For one event through both channels the order matters exactly when the webhook would have decided; polled first, the decision is lost |
| Handlers.PollWrites | marketBackend/src/services/eventListenerService.ts:109-162 | A polled event logs, by its type, exactly when it is new, an approval or a rejection, with a known market and an actor; it records success or failure accordingly and writes nothing else |
| Handlers.WebhookWrites | marketBackend/src/controllers/webhookController.ts:75-279 | What a webhook logs and records in every case: one entry for hearing it, those of the decision when it decides, and success, failure or skipped |
| Handlers.RegisterOutcome | marketBackend/src/services/marketService.ts:71-169 | A registration adds one market that waits for approval, and logs registration and request in turn |
| Handlers.DecideOutcome | marketBackend/src/services/marketService.ts:174-247 | Exactly a pending market is decided on; approval names the approver and starts activation, rejection denies, each with its log entries |
| Handlers.ActivateOutcome | marketBackend/src/services/marketService.ts:258-287 | Exactly an approved market starts its activation |
| Handlers.CloseOutcome | marketBackend/src/services/marketService.ts:318-359 | Pausing pauses and archiving archives, each with its own log entry; the rest of the market and all others stand |
| Handlers.DeployOutcome | marketBackend/src/infra/queue/tokenDeploymentHandler.ts:30-178 | What a deployment job stores: the deployed address unless the call failed, active and logged only when nothing fails later, approved otherwise; it calls out exactly for an activating market |
| Lifecycle.StatusKeepsOkIff | marketBackend/src/infra/database/repositories/marketRepository.ts:67-90 | The unguarded status write keeps the lifecycle exactly when the market's history fits the status |
| MarketTables.MarketStore.RegisterMarket | marketBackend/src/services/marketService.ts:71-169 | Refines registration and the request for approval; the new market is undecided |
| MarketTables.MarketStore.ProcessApprovalDecision | marketBackend/src/services/marketService.ts:174-247 | Refines the decision; from the lifecycle: it is the first and only one, and a rejected market has no contract |
| MarketTables.MarketStore.ActivateMarket | marketBackend/src/services/marketService.ts:258-287 | Refines the start of activation; only a market with an applied approval gets there |
| MarketTables.MarketStore.CloseMarket | marketBackend/src/services/marketService.ts:318-359 | Refines pause and archive, which look at no status, keeping the lifecycle |
| MarketTables.MarketStore.HandleTokenDeployment | marketBackend/src/infra/queue/tokenDeploymentHandler.ts:30-178 | Refines the deployment job with its catch block; it deploys only for an approved market, no more often than activation was started, and an active market has its contract and its milestones in order |
| MarketTables.MarketStore.HandleWebhook | marketBackend/src/controllers/webhookController.ts:75-156 | Refines webhook delivery with its record; a second delivery changes nothing |
| MarketTables.MarketStore.HandleMarketApprovalDecision | marketBackend/src/controllers/webhookController.ts:184-279 | Refines the webhook's decision: log first, then decide |
| MarketTables.MarketStore.ProcessEntityPermissionEvent | marketBackend/src/services/eventListenerService.ts:109-162 | Refines poll delivery, which goes by the event type; it decides nothing, and a second delivery changes nothing |
| MarketTables.MarketStore.PollEvents | marketBackend/src/services/eventListenerService.ts:98-100 | The polling loop is its deliveries in turn and decides nothing |
| MarketTables.MarketStore.PublishEvent | marketBackend/src/infra/eventBroker/marketEventBroker.ts:45-90 | Appends to the log, or throws when the table refuses the row; disturbs no market |
| MarketTables.MarketStore.HasReachedState | marketBackend/src/infra/eventBroker/marketEventBroker.ts:102-108 | True exactly when the log holds such an entry; always true of the milestones of a market that stands |

## Left out

- Runs.RunKeepsSound: one direction, for atomic trades and carried fills at any prices; within the price cap Guards.RunStaysSoundIff is exact for every mode and every step.
- Guards.RunStaysSoundIff: about prices up to 400 * 10^18; above, a buyer's fee can exceed the fill (Amounts.BuyerCreditNonNegativeIff) and refuse a trade for want of available base, which single trades account for (Trades.TradeRefusedIff, Overdraft.TradeKeepsSolventIff).
- Guards.AsWrittenIsAsDocumented: one direction; Guards.RunAgreesIff is exact.
- Conservation.RunConserves: one direction; Leaks.RunConservesIff is exact for runs that are sound before every step, Conservation.RunWealth for all.
- Conservation.RunWealth: the leak of a job is the sum over its trades, each as the trade finds the rows; from a sound state Leaks.JobConservesIff says before the job whether it is zero.
- Leaks.RunConservesIff: about price-capped runs that are sound before every step; once a refused trade has left its writes behind, later refusals depend on every seller's lock.
- StaleFills.StaleFillShowsIff: leaves out, without rollback, a MARKET BUY whose lock does not cover its job: it ends unsound whichever way fills are counted (Guards.JobOrphans).
- StaleFills.JobStores: leaves out, without rollback, a MARKET BUY whose lock does not cover its job, which ends unsound (Guards.JobOrphans).
- StaleFills.StaleJobSolventIff: leaves out the same jobs; whether they end sound is settled by Guards.JobSoundIff.
- Fills.JobTrades: leaves out the same jobs: a refused trade leaves its row behind, and the ones after it depend on every seller's lock.
- Fills.JobFillsAreShares: leaves out the same jobs.
- Fills.JobLeaves: carried fills, and not the same jobs; with stale counts StaleFills.StaleJobSolventIff.
- Crossing.JobRows: leaves out a MARKET BUY whose lock does not cover its job, in any mode; Crossing.FullFetchKeepsUncrossed does not.
- Allocation.LoopFollowsShares: carried fills; with stale counts Fills.JobTrades.
- Allocation.LoopSlack: carried fills; with stale counts StaleFills.StaleJobSolventIff.
- Counts.TradeLowersUnfilled: about a taker whose snapshot is its row, which with stale counts the second fill of a job does not have.
- Solvency.TradeKeepsBooks: about the same takers; the stale count itself breaks the books (Guards.JobSoundIff).
- Counts.RowsAreFills: about rolled-back trades; without rollback a refused trade leaves a row that fills nothing.
- Greedy.JobIsPriceOptimal: leaves out a MARKET BUY whose lock does not pay for what it wants: it passes over orders it cannot pay.
- Outcomes.JobVolume: leaves out a MARKET BUY whose lock does not cover its job: it passes over or half-books what it cannot pay.
- Outcomes.JobStatus: leaves out the same jobs.
- Crossing.RunKeepsUncrossed: about runs that stay sound; a single job is settled exactly by Crossing.JobKeepsUncrossedIff.
- RateLimiting.RateLimiter.constructor: asks for a positive interval; with zero the source divides by zero in floating point.
- Store.ExchangeStore.ProcessMatchingJob: as written only; rolling a trade back is modelled on the database state without its cache.
- Concurrency: the worker runs ten jobs at a time without row locks; operations here are atomic and run one after another.
- Redis order book, its float scores and its expiry times; cached balances expire by an explicit step instead.
- HTTP, authentication, EIP-712 signatures, nonces, compliance and order size limits: one arbitrary boolean per request.
- Sapphire RPC, contract calls and the bridge: an arbitrary outcome per attempt.
- Failures after the last write of a trade: an audit, Redis or queue failure (marketBackend/src/infra/queue/matchingWorkerHandler.ts:410-462) re-enters the catch blocks of the trade and of the loop, which then does not count the written trade against the remaining quantity.
- Publishers, queues, notifications, audit rows and caches after the last write of any other operation, except in swap attempts, where their failure re-enters the catch block: cancelOrder in particular ends at its status write.
- BullMQ retries of matching jobs, delays, stalling and jobId de-duplication: any job may run at any time, any number of times; swap attempts are numbered.
- Deposits, mints, transfers, settlement on chain and blockchain reconciliation, which overwrites balances and is not meant to keep locks.
- Wrapper locks, which bypass the balance cache, and wrapper fees; only the conversion arithmetic is modelled.
- The synchronous copy of the matcher in the trading service, which nothing calls.
- Negative amounts, decimal fractions in price strings and time in force, which matching ignores.
- Minimum target amounts and rate estimates of swaps, which only the bridge and clients read.
- Token and pair rows created by a deployment, market assets, metadata and filters.
- Deletion of old processed events, which nothing calls.
- Candles, market statistics, gas estimation and the transaction manager: thin, or only easy members.
