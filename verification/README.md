# Verified model of a trading back end

A Dafny 4.11 model of the money- and position-carrying parts of the back end: the
order book and its matching engine, stop-order cascades, the position books, the
wallet, the order-amend protocol, the margin ledger and margin engine, the broker's
order-update feed, and three self-contained algorithms (option-chain token index,
implied volatility, capped NAV history). `dafny verify dfyconfig.toml` checks all of it.

How it is built. Each state machine has a value (`Market`, `Book`, `State`, `Ledger`)
and step functions that say what one committed transaction or one atomic statement
does to it. The services that the source writes as objects are classes whose methods
follow the source statement by statement and are proved to perform exactly those
steps; loops the source runs are loops here, with invariants. The laws are lemmas over
every run or every interleaving of steps. `Decimal` is `real`, quantities are `int`.
Positions are modelled for a signed quantity; products of quantity and price go through
`Positions.Value`.

| module | what it models |
|---|---|
| Positions, PositionBook, PositionRows | one position's arithmetic, the cached live book with its watch sets, the second row-per-product implementation |
| Matching, Settlement | the greedy matching loop, the price-time query, the trades it proposes |
| Exchange, ExchangeMoney, ExchangeConservation, ExchangeLimits | place, cancel, amend, match and trigger as transactions; money, units and fills over whole runs, and exactly where those laws stop |
| OrderBook, ExchangeLedgers | the same exchange told by the rows themselves: prices, quantities, statuses, holdings and positions |
| Dormancy, ExecutionEngine | dormant orders, and the mutual recursion of execution and stop triggering |
| AmendProtocol | PUT /orders/{id} interleaved with everything else, statement by statement |
| WalletWriters | every writer of a wallet row, interleaved, including the payment webhook |
| MarginLedger, PriceResolver, MarginEngine, MarginAmounts | the four margin tables, the tiered price resolver, the two calculators, pre-trade check and fill reconciliation, and the amounts they come to |
| BrokerUpdates | fills, rejections and cancellations from the broker's feed |
| ImpliedVol, NavReturns, TickIndex | the three self-contained algorithms |
| Sums, Text, Reals, Wrappers | sums over tables, string trimming, absolute value, `Option` |

## What the model shows

Properties that hold of every run are in the table below. Where the code falls short of
what its comments or its callers expect, the model follows the code; each case has a
lemma, most with the exact condition.

- Price improvement on an incoming BUY is debited at the limit and never given back
  (`ExchangeMoney.MoneyExactly`: money falls by exactly that).
- `check_and_trigger` reads a woken order's quantity before it executes the orders
  woken with it; if one of them fills it first, it is executed again for the old
  quantity (`ExchangeLimits.StaleCaptureOverfills`; `ExchangeConservation.FillsExactly`
  and `ExchangeMoney.MoneyExactly` give the exact effect over whole runs, and
  `ExecutionEngine.Engine.CreateOrder` has none when no price wakes two orders at once).
- A plain STOP BUY adopts the last price when it wakes, so cancelling it afterwards
  refunds more, or less, than was debited (`ExchangeLimits.WokenStopRefundsMore`,
  `TriggerMoneyExactly`).
- A fill releases an order's margin block only if the order snapshot carries the order's
  id. The snapshot query (`queries/orders.yaml:17-20`) and the broker handler's snapshot
  carry none, so the block stays until a cancel, which an executed order cannot get
  (`MarginEngine.BlockOutlivesFills`, `BlockedAfterFill`). `margin_engine.py` says a fill
  releases the block once. Moreover the ledger's helpers read rows by position while the
  execution engine's cursor yields rows keyed by name, so for its fills reconciliation
  raises and is only logged.
- A fill that leaves a short option or a future open is margined only if it finds a price
  (`MarginEngine.ReconciledIff`): one in the order snapshot, which carries none, or for
  an option a leg of the cached chain. The resolver looks for that chain in an
  `OptionChainService` it has just built (`tiered_price_resolver.py:103-106`), whose
  caches are empty. So as the code stands no fill ever gives a position a margin
  (`UnpricedIsNeverMargined`), and wallets are blocked for orders only
  (`OnlyOrdersHoldMargin`).
- An F&O symbol neither master recognises is never checked before the trade, and
  `margin_engine.py` means to margin its fills by the option formula. That formula needs a
  strike or a spot, and such a symbol has neither, so every fill that leaves the position
  open raises and it stays unmargined, whatever is cached or in the snapshot
  (`ReconciledIff`, `UnpricedIsNeverMargined`).
- With no leg cached, an order is priced by its own limit or by an internal trade near it;
  an order without a price cannot be margined and its check raises
  (`PriceResolver.ResolvedIff`).
- The undo of an amend that lowered the price can be refused when the credit is already
  spent; nothing else in the amend protocol loses money (`AmendProtocol.MoneyIsConserved`,
  `RefusedUndoLosesMoney`).
- A standalone credit of a user without a wallet row updates nothing and reports success
  (`WalletWriters.LostIffNoWallet`).
- A broker fill delivered after the order was cancelled and refunded still settles
  (`BrokerUpdates.BothRefundedAndFilledIff`, `CancelThenFill`). Settlement writes the
  position cache before the transaction commits, and a rollback does not undo it: a fill
  that fails late is in the cached position, and again on redelivery
  (`RedeliveryIsHarmlessIff`, `PositionsFollowFillsIff`, `FailingTwiceFillsTwice`).
- A position whose later fill names another token stays in the old token's watch set
  (`PositionBook.WatchIsExactIff`, `StaleTokenStillReprices`).
- Feed calls handed to a thread pool can overtake one another; each release run for a
  token with count zero leaves one subscription too many, and a call given up while queued,
  when the wait for it times out, leaves one too few or too many
  (`TickIndex.CountsFollowCaches`, `OvertakingLeaks`). A viewer can hold a chain whose cache was evicted while its
  stream was being set up (`LateAcquireHoldsNothing`).
- `implied_volatility` says it never raises; its Newton loop is guarded, the bisection it
  falls back to is not (`ImpliedVol.BisectionIv` says exactly when it raises,
  `NewtonQuietBisectionRaises` shows it). Running out of Newton steps inside the range
  returns the last estimate whatever it prices (`ImpliedVol.ImpliedVolatility`).

## Model

| member | source | states |
|---|---|---|
| Positions.ServiceFigures | service/positionService.py:126-169 | the branches of `apply_fill` compute the one-fill specification `Filled`: signed net, weighted averages, realised P&L only on the closed part, reset to zero or to the fill price on close and flip |
| Positions.RowFigures | service/positionsService.py:51-94 | the differently branched `applyFill` computes the same specification |
| Positions.AddingBooksNothing | service/positionService.py:134-157 | a fill on the position's own side books no profit and adds exactly its own cost to what is open |
| Positions.OpposingBooksTheClosed | service/positionService.py:143-169 | a fill on the other side books exactly the closed quantity against the average; working off part leaves the average alone, all leaves it zero, and a flip opens the rest at the fill's price |
| Positions.OneSideBooksNothing | service/positionService.py:134-157 | over runs: fills all on one side of a flat position realise nothing and leave it standing at exactly what was paid or received |
| Positions.LifetimeAverages | service/positionService.py:134-157 | over runs: the lifetime averages are those of all buys and of all sells |
| Positions.CashIdentity | service/positionService.py:126-169 | after any fills: netqty = bought − sold, sell value − buy value = net cash = realised P&L − cost of what is open, average zero exactly when flat |
| Positions.TotalPnlIsCashPlusHoldings | service/positionService.py:177-201 | total P&L at any price is the net cash taken in plus the holding at that price |
| Positions.TotalPnlStep | service/positionService.py:143-169 | one fill moves total P&L at any mark by its cash plus its quantity at the mark, from any position, flips included |
| Positions.SlicingIsIrrelevant | service/positionService.py:134-169 | q1 + q2 at one price is q1 then q2, from every position and through zero |
| PositionBook.PositionStore.ApplyFill | service/positionService.py:84-245 | input errors change nothing; otherwise cache, table and watch sets move exactly by one fill step (insert on open, cache only while open, final row on close) |
| PositionBook.PositionStore.SaveOpenPosition | database/positionCache.py:123-138 | the hash entry is written and the position joins its instrument's watch set, if the instrument is known |
| PositionBook.PositionStore.RemovePosition | database/positionCache.py:140-149 | the entry goes, and the position leaves the watch set of the instrument given |
| PositionBook.PositionStore.ApplyTick | database/positionCache.py:153-251 | every watching, unlocked, open position is marked at the tick, gone ones leave the watch set, locked ones are untouched; the count returned is exact |
| PositionBook.PositionStore.TickMember | database/positionCache.py:217-251 | the loop body for one member under its lock |
| PositionBook.BookRefinesFold | service/positionService.py:106-116 | after any interleaving of fills, whole ticks and single turns of a tick's loop, cache-else-row equals the plain fold of the position's fills; the row is the opening fill's while open, CLOSED and flat otherwise; a cached position is in its instrument's watch set |
| PositionBook.TickShowsCashPlusHoldings | database/positionCache.py:237-246 | the total P&L a tick stores is the user's net cash in the contract plus the holding at the tick |
| PositionBook.OpenPositionsAreMarked | database/positionCache.py:237-246 | after any fills and ticks an open position's unrealised P&L is its holding at the price it shows less its cost, and its total adds what is realised |
| PositionBook.FillWatches | database/positionCache.py:123-149 | a fill puts an open position in, and takes a closed one out of, the watch set of the exchange and token it names, if it names both, and touches no other |
| PositionBook.FillKeepsExactIff | database/positionCache.py:123-149 | a fill keeps every watch set exactly the open positions on its instrument if and only if its position was uncached, watched nowhere, or watched under the instrument the fill names |
| PositionBook.TickKeepsExact | database/positionCache.py:196-251 | ticks, whole or member by member, always keep that |
| PositionBook.WatchIsExactIff | database/positionCache.py:123-251 | the watch sets are exact at every point of a run if and only if no fill of a cached position names another instrument |
| PositionBook.WatchIsExact | database/positionCache.py:123-149 | in particular when each contract's fills always name one instrument, each watch set is exactly the open positions on it |
| PositionBook.StaleTokenStillReprices | database/positionCache.py:123-138 | otherwise the old token keeps repricing the position: a concrete run |
| PositionRows.PositionsService.ApplyFill | service/positionsService.py:27-115 | input errors change nothing; otherwise one row per user, symbol and product is rewritten with the filled figures and its status |
| PositionRows.RowIsFold | service/positionsService.py:51-114 | the row exists exactly when there were fills and is their fold |
| PositionRows.ImplementationsAgree | service/positionsService.py:51-94 | for fills of one product with symbols already in canonical form, both services give equal figures and OPEN/CLOSED status on every sequence of fills and ticks |
| PositionRows.ProductsAddUp | service/positionsService.py:27-115 | whatever products the fills carry, the rows' net quantities add up to the live position's, and so does total P&L at every mark price |
| Matching.MatchingOrder | service/matchingEngine/matchingEngineService/matching_engine_service.py:54-128 | the in-place loop yields the closed-form greedy trades, each row drops by exactly its trade, it raises exactly when an unpriced order or row is reached with quantity left, and an order left unfilled leaves no other user's opposite row within its limit |
| Matching.FillsAllItCan | service/matchingEngine/matchingEngineService/matching_engine_service.py:60-122 | total traded is the lesser of the incoming quantity and what crossing rows of other users hold |
| Matching.NothingCrossingIsLeft | service/matchingEngine/matchingEngineService/matching_engine_service.py:24-28 | when the trades do not fill the order, every row of another user on the other side that has quantity left is priced strictly beyond the limit |
| Matching.TradesRespectBothSides | service/matchingEngine/matchingEngineService/matching_engine_service.py:16-31 | every trade is between two users, at the resting price, within both limits, within the row, sides not swapped |
| Matching.EarlierRowsFirst | service/matchingEngine/matchingEngineService/matching_engine_service.py:63-122 | a row trades only when every earlier eligible row is used up |
| Matching.GreedyIsOptimal | service/matchingEngine/matchingEngineService/matching_engine_service.py:60-122 | on best-price-first rows no other feasible allocation of the same total is cheaper for a buyer or dearer for a seller |
| Settlement.QueryMembers | queries/matching_engine.yaml:1-21 | the query returns exactly the selectable rows, each once |
| Settlement.QueryIsPriceTime | queries/matching_engine.yaml:1-21 | in price order, ties oldest first |
| Settlement.MatchIsOptimal | queries/matching_engine.yaml:9-20 | so on the rows the book query returns, a match is optimal for the incoming side |
| Settlement.ProposedAreSane | service/matchingEngine/matchingEngineService/matching_engine_service.py:63-122 | what settlement relies on: each proposed trade is with a different selectable row of another user, for no more than it holds, priced by that row |
| Settlement.SettlementTouches | service/executionEngine.py:397-452 | committing a trade list changes exactly the incoming row and the rows traded with, each to its remainder and status, and appends exactly the trades |
| OrderBook.PlacedExactly | api/orders.py:99-186 | a request is placed if and only if its quantity and any price and trigger are positive and a cash BUY is priced and covered; then it rests whole, dormant exactly if a STOP or STOPLIMIT, and exactly its cost leaves the wallet |
| OrderBook.CancelledExactly | queries/orders.yaml:41-45 | a cancel takes effect if and only if the order is the user's and pending, and gives a cash BUY its whole cost back |
| OrderBook.AmendedExactly | queries/orders.yaml:47-56 | an amend takes effect if and only if the order is the user's, pending and without margin, every value named is positive and the wallet covers the rise in cost; then each field named has the value named, every other its old one, a new quantity rests whole, the wallet moves by exactly the difference, and no other row changes |
| OrderBook.QueryIsBestPriceOldestFirst | queries/matching_engine.yaml:1-21 | the query returns exactly the other users' awake opposite rows of the symbol with quantity left, cheapest (dearest) first, oldest first at equal price |
| OrderBook.BookIsNeverLeftCrossed | service/executionEngine.py:234-319 | after a matching transaction that does not fail and leaves quantity over, no awake row of another user on the other side is unpriced or within the limit |
| OrderBook.ExecutedIffNothingLeft | service/executionEngine.py:418-452 | over every run an order is EXECUTED in the book exactly when nothing of it is left, and both tables agree on its status unless it is FAILED |
| ExchangeLedgers.HoldingsBookCost | database/portfolioPersistence.py:28-70 | an equity buy adds its quantity and cost to the holding, a sale takes its quantity and leaves the average alone; it raises exactly for a sale of more than is held or a quantity or price that is not positive |
| ExchangeLedgers.TradeSettlesExactly | service/executionEngine.py:397-484 | one trade settles if and only if it has a quantity and a price, the seller has a wallet, and a seller of shares holds what is sold |
| ExchangeLedgers.SettlementSettlesExactly | service/executionEngine.py:397-484 | a list of F&O trades within the quantity it is run for settles if and only if each has a price and a seller with a wallet |
| ExchangeLedgers.PositionsFollowTheTape | service/executionEngine.py:397-484 | over every run each user's position in each F&O symbol is the fold of that user's fills on the tape, each once, in order, at the price traded |
| ExchangeMoney.RunKeepsSound | api/orders.py:156-186 | no run of place, amend, cancel, match and trigger makes a wallet negative or an order row inconsistent |
| ExchangeMoney.MatchMoney | service/executionEngine.py:397-484 | the exact change of cash plus reservations by one matching transaction, for any quantity it is run for, including rollback |
| ExchangeMoney.ApplyMoney | service/orderService.py:284-354 | each step of plain orders changes cash plus reservations by exactly the improvement withheld from an incoming BUY and what a stale quantity re-opens |
| ExchangeMoney.MoneyExactly | service/executionEngine.py:480-484 | over every run of priced LIMIT, MARKET and STOPLIMIT non-futures orders, whatever quantities are executed, cash plus reservations changes by exactly minus the improvements plus the re-openings |
| ExchangeMoney.MoneyNeverRises | service/executionEngine.py:480-484 | so it never rises, and falls by exactly the sum of (limit − price) × quantity on incoming BUY fills, when every match runs for what the book still holds |
| ExchangeMoney.MatchKeepsRequests | service/executionEngine.py:418-452 | matching never changes what an order asked for |
| ExchangeConservation.UnitsConserved | service/tradeSettlementService.py:27-70 | units held plus net positions over all users never change, whichever ledger each side settles in |
| ExchangeConservation.TradeConserves | service/executionEngine.py:462-478 | one settled trade conserves units, and P&L at every mark when both sides settle as positions |
| ExchangeConservation.BookIsZeroSum | service/executionEngine.py:462-478 | starting flat, for every F&O symbol net quantities over users sum to 0 and so does realised plus marked P&L at every mark price |
| ExchangeConservation.FillsExactly | service/executionEngine.py:397-452 | over every run, an order's fills plus remainder exceed the quantity asked for by exactly what trading transactions ran it for beyond what it still lacked |
| ExchangeConservation.NoOverfill | service/executionEngine.py:397-452 | so fills on the tape plus remainder is the quantity asked for over every run whose matches use the book's remainder |
| ExchangeLimits.FillsAccountedExactly | service/stopOrderTriggerService.py:91-105 | a trading transaction keeps that account if and only if it runs for the quantity still unfilled |
| ExchangeLimits.StaleCaptureOverfills | service/stopOrderTriggerService.py:91-105 | one price wakes two orders, the first fills the second, and the second sells its quantity twice |
| ExchangeLimits.TriggerMoneyExactly | service/stopOrderTriggerService.py:143-164 | waking orders changes cash plus reservations by exactly the repricing of plain STOP BUYs |
| ExchangeLimits.WokenStopRefundsMore | service/stopOrderTriggerService.py:159-164 | a STOP BUY placed at 10 and woken at 15 refunds 15 |
| Dormancy.MatchLeavesDormant | database/portfolioPersistence.py:207-232 | no transaction trades with, reports on or wakes a dormant order |
| Dormancy.WakesOnlyOnItsCondition | service/stopOrderTriggerService.py:143-164 | an order stops being dormant only by its own cancellation or by a price meeting its condition, taking the right price |
| Dormancy.WakesExactlyAtItsTrigger | service/stopOrderTriggerService.py:143-164 | a last price wakes exactly the dormant orders of its symbol whose trigger it has reached, from below for a BUY and from above for a SELL; a STOP or an order without a limit then stands at that price, others at their limit; no other row changes |
| Dormancy.DormantUntilReached | service/stopOrderTriggerService.py:77-108 | over runs: a dormant order nobody amends is still dormant, unchanged, if and only if no price has reached its trigger and it was not cancelled |
| Dormancy.AwakeStaysAwake | service/stopOrderTriggerService.py:83-90 | and never becomes dormant again |
| Dormancy.TriggersAtMostOnce | service/stopOrderTriggerService.py:83-105 | over any run each dormant order is triggered at most once |
| ExecutionEngine.Engine.SettleFill | service/tradeSettlementService.py:27-70 | routes a side to positions or holdings, with the cases in which holdings raise |
| ExecutionEngine.Engine.SettleTrade | service/executionEngine.py:397-484 | the loop body for one trade: tape, both rows, both settlements, seller's credit, or a raise |
| ExecutionEngine.Engine.FindMatches | service/matchingEngine/matchingEngineService/matching_engine_service.py:34-50 | query plus greedy loop give the proposed trades, or raise on an unpriced pair |
| ExecutionEngine.Engine.RollBack | service/executionEngine.py:163-176 | a raise undoes the transaction and marks only the order FAILED; its book row stays as it was |
| ExecutionEngine.Engine.RunTransaction | service/executionEngine.py:234-319 | the trade loop and its rollback are one matching transaction; the prices passed on are those of its trades |
| ExecutionEngine.Engine.ExecuteOrder | service/executionEngine.py:56-140 | an execution with everything it sets off is a finite run of committed transactions: it terminates on the number of dormant orders, at most that many executions follow, each of an order some traded price woke, for the quantity read then; if no price wakes two orders at once every quantity is what the book still holds |
| ExecutionEngine.Engine.CheckAndTrigger | service/stopOrderTriggerService.py:48-140 | the other half of the mutual recursion, same guarantees |
| ExecutionEngine.Engine.WakeRows | service/stopOrderTriggerService.py:77-108 | the pass over dormant rows wakes exactly those whose trigger the price has reached and returns each with its quantity and price |
| ExecutionEngine.Engine.PlaceOrder | api/orders.py:99-186 | placing debits the wallet and adds the order, or refuses and changes nothing |
| ExecutionEngine.OrderKeepsTheLaws | service/executionEngine.py:505-525 | the money and fill laws of runs, for one order and any cascade its execution explains |
| ExecutionEngine.Engine.CreateOrder | api/orders.py:243-300 | an order that is not dormant is executed with its cascade; from placing to the end of it, cash plus reservations changes by exactly the improvements and re-openings, and if no price woke two orders at once it never rises and nothing is overfilled |
| AmendProtocol.RunKeepsSound | api/orders.py:625-671 | in every interleaving of amends, failing writes, cancels, fills, trigger repricings and other wallet traffic the balance is never negative and every request's remembered terms and delta stay consistent |
| AmendProtocol.MoneyIsConserved | api/orders.py:693-709 | in every interleaving wallet, reservations, moves in flight and refunds owed change only by what others bring or spend and by exactly the refused undos |
| AmendProtocol.ConservedIffNoUndoRefused | api/orders.py:693-709 | money is conserved if and only if no undo found the wallet short |
| AmendProtocol.RefusedUndoLosesMoney | api/orders.py:650-671 | a concrete run in which it is: an order paid 10 refunds 10 although 6 of it had been credited and spent |
| AmendProtocol.QuietMoney | api/orders.py:548-690 | with nothing in flight, that money is the wallet plus the open orders' cash |
| AmendProtocol.WritesCarryTheChange | queries/orders.yaml:47-56 | in any state, a write that applies leaves the order with every field the change names and the values read for the rest, and touches no other order; one that does not apply touches none |
| AmendProtocol.ReadRefusesExactly | api/orders.py:577-603 | refused outright, with nothing moved, exactly for a change that names nothing or a value that is not positive, and an order missing, routed to the broker or no longer pending |
| AmendProtocol.ChargeRefusesExactly | api/orders.py:614-647 | once read, refused exactly for an order with margin and for a rise in cost above the balance; otherwise exactly the rise, negative for a fall, leaves the wallet |
| AmendProtocol.Desk.ModifyOrder | api/orders.py:548-690 | the handler's statements, with anything in between and a write that may raise, are one interleaving of the protocol, and the reply says which path it took; a reply of Modified means the row holds the requested price, quantity and trigger, and for fields not requested what it held when the request arrived |
| AmendProtocol.Desk.LoadOrder | api/orders.py:577-603 | the read, and the refusals of missing, broker-routed and no longer pending orders |
| AmendProtocol.Desk.MoveWallet | api/orders.py:614-647 | a margin-required order is refused; else the wallet move is exactly new cost minus old, debited if affordable, credited if negative |
| AmendProtocol.Desk.ModifyOrderById | queries/orders.yaml:47-56 | the guarded UPDATE applies exactly when status, price, quantity and trigger are still those read, and then each field is the change's value where given and the expected one otherwise |
| AmendProtocol.Desk.WriteOrder | api/orders.py:649-671 | the write settles the request or leaves it to be undone, raising or not |
| AmendProtocol.Desk.ReverseWalletDelta | api/orders.py:693-709 | the move is taken back unless a debit is refused, which is recorded as lost |
| AmendProtocol.Desk.UndoMove | api/orders.py:656-671 | a lost or failed write ends in its error reply with the move undone or lost |
| WalletWriters.RunKeepsSound | database/razorpaypersistence/RazorPayPersistence.py:119-155 | in every interleaving there is at most one wallet row, its balance is not negative, what lock holders read is still true, and no payment is credited twice or held by two handlers |
| WalletWriters.NoLostUpdates | database/walletbalancepersistence/WalletBalancePersistence.py:33-115 | in every interleaving the balance is the opening balance plus committed credits minus granted debits, less credits that met no row |
| WalletWriters.LostIffNoWallet | database/walletbalancepersistence/WalletBalancePersistence.py:83-115 | credits are lost if and only if a standalone credit met no wallet row |
| WalletWriters.CreditBeforeFirstDeposit | database/walletbalancepersistence/WalletBalancePersistence.py:83-115 | it happens to a user who has never paid in |
| WalletWriters.WalletStays | queries/wallet.yaml:12-25 | once there is a row there is one row for ever, and nothing is lost |
| WalletWriters.AtRest | database/razorpaypersistence/RazorPayPersistence.py:84-180 | with no handler running a payment was credited exactly once if paid and its handler did not fail, otherwise never |
| WalletWriters.RedeliveryIsIgnored | service/razorpay/RazorPayMangerService.py:150-163 | a webhook delivered again, at any later time, changes nothing |
| WalletWriters.Wallets.DebitWalletIfSufficient | database/walletbalancepersistence/WalletBalancePersistence.py:33-81 | true exactly when the wallet could pay, and then exactly that is gone |
| WalletWriters.Wallets.CreditWallet | database/walletbalancepersistence/WalletBalancePersistence.py:146-167 | the absolute balance written is the balance still in the table plus the credit, whatever others did since the read |
| WalletWriters.Wallets.UpdatePaymentStatus | database/razorpaypersistence/RazorPayPersistence.py:46-82 | true only for the call that flips the row from PENDING |
| WalletWriters.Wallets.JoinLedgerWithWallet | queries/razorpay.yaml:12-22 | what the join tells the handler |
| WalletWriters.Wallets.TakeAdvisoryLock | database/razorpaypersistence/RazorPayPersistence.py:122-127 | granted to one handler at a time |
| WalletWriters.Wallets.InsertOrIncrement | database/razorpaypersistence/RazorPayPersistence.py:128-144 | under the lock: insert only if there is still no row, else increment |
| WalletWriters.Wallets.IncrementRow | database/razorpaypersistence/RazorPayPersistence.py:145-152 | the increment of a row already seen |
| WalletWriters.Wallets.InsertUpdateWallet | database/razorpaypersistence/RazorPayPersistence.py:84-155 | run to its end with anything in between, it credits the payment once |
| WalletWriters.Wallets.PaymentWebhook | service/razorpay/RazorPayMangerService.py:150-163 | duplicate deliveries change nothing; the first one credits once or is still waiting for a lock |
| MarginLedger.FindActive | queries/margin.yaml:18-24 | the ACTIVE block of an order, or none exists |
| MarginLedger.BlockKeepsSound | service/marginengine/postgres_margin_ledger_repository.py:34-73 | blocking keeps every wallet's blocked margin equal to its active blocks plus position margins |
| MarginLedger.ReleaseKeepsSound | service/marginengine/postgres_margin_ledger_repository.py:75-95 | so does releasing |
| MarginLedger.ReleaseClampInert | service/marginengine/postgres_margin_ledger_repository.py:85-88 | the clamp at zero never acts on a release |
| MarginLedger.ReconcileClampInert | service/marginengine/postgres_margin_ledger_repository.py:109-111 | nor on a reconciliation |
| MarginLedger.ReconcileAgreesIff | service/marginengine/postgres_margin_ledger_repository.py:97-115 | reconciling keeps the agreement if and only if the position has a row or needs no margin |
| MarginLedger.ReconcileRaisesKeepsSound | service/marginengine/postgres_margin_ledger_repository.py:97-121 | when it raises no wallet has changed |
| MarginLedger.StepsAreExplained | service/marginengine/postgres_margin_ledger_repository.py:62-115 | each operation's audit row is exactly the change of the wallet's blocked margin |
| MarginLedger.ReleaseIsIdempotent | service/marginengine/postgres_margin_ledger_repository.py:77-81 | releasing again changes nothing |
| MarginLedger.PostgresMarginLedgerRepository.BlockOrderMargin | service/marginengine/postgres_margin_ledger_repository.py:34-73 | writes block, wallet and audit, or raises on a second active block, a negative amount or a missing wallet |
| MarginLedger.PostgresMarginLedgerRepository.ReleaseOrderMargin | service/marginengine/postgres_margin_ledger_repository.py:75-95 | releases the active block with wallet and audit, or does nothing |
| MarginLedger.PostgresMarginLedgerRepository.ReconcilePositionMargin | service/marginengine/postgres_margin_ledger_repository.py:97-121 | replaces the position's margin and moves the wallet by the difference, including what remains written when it raises |
| PriceResolver.ResolvedIff | service/marginengine/tiered_price_resolver.py:52-97 | a price is found if and only if the option's leg is in the cached chain or the order has a positive price; internal trades never decide it |
| PriceResolver.TiersInOrder | service/marginengine/tiered_price_resolver.py:52-97 | the price is that of the contract's own leg, call or put, in the chain's first entry at its strike, with the chain's spot; else the last trade within the band; else the order's own |
| PriceResolver.TradesMoveThePriceWithinTheBand | service/marginengine/tiered_price_resolver.py:131-162 | no last internal trade moves the price an order is margined at by more than the band around the order's own price, nor at all where the chain has the leg |
| PriceResolver.ResolveFromCachedChain | service/marginengine/tiered_price_resolver.py:99-126 | the loop over the chain finds the leg of the first entry at the strike, with the chain's spot, or nothing |
| PriceResolver.ResolvePrice | service/marginengine/tiered_price_resolver.py:43-97 | the tiers tried in order give the price the specification says, or raise |
| MarginEngine.TablesAlwaysAgree | service/marginengine/margin_engine.py:174-392 | after any checks, cancels and fills of any users, blocked margin is active blocks plus position margins and is what the audit trail adds up to |
| MarginEngine.MarginIsLinear | service/marginengine/options_margin_calculator.py:30-88 | both calculators charge quantity times a per-unit rate, and whether they raise does not depend on the quantity |
| MarginEngine.FutureIsLinear | service/marginengine/futures_margin_calculator.py:29-67 | the futures formula per unit |
| MarginEngine.OptionIsLinear | service/marginengine/options_margin_calculator.py:30-88 | the option formula per unit: premium plus notional |
| MarginEngine.UnknownSpotIsConservative | service/marginengine/options_margin_calculator.py:90-123 | without a spot price the multiplier is at least that of any spot, when the in-the-money one is the largest |
| MarginEngine.SplitIsWhatTheFillCloses | service/marginengine/margin_engine.py:394-403 | the closing part is exactly the quantity whose profit the fill books, the opening part what the exposure grows by beyond it |
| MarginEngine.PreTradeCoversFill | service/marginengine/margin_engine.py:355-387 | wherever both are priced, and at one price, margin held plus the block equals the margin of the filled position plus exactly that of the closed part, for futures and options, both sides, through zero |
| MarginEngine.CoverIsTight | service/marginengine/margin_engine.py:221-245 | hence exact when nothing closes, never short when the rate is not negative |
| MarginEngine.ReconciledIff | service/marginengine/margin_engine.py:340-387 | the margin a filled position needs can be computed if and only if it is flat or a long option, or the fill is priced: never for an unrecognised symbol, for a future only by a price in the snapshot, for an option by that or a non-negative leg of the cached chain |
| MarginEngine.CheckDecides | service/marginengine/margin_engine.py:221-250 | approved if and only if balance less blocked covers the opening part; then blocked stays within the balance; a refusal reports the exact shortfall and changes nothing |
| MarginEngine.CheckBlocks | service/marginengine/margin_engine.py:236-250 | an approval blocks what it reports under that order |
| MarginAmounts.FutureOrderBlocks | service/marginengine/margin_engine.py:446-484 | an order opening futures, either way, blocks opening quantity × price × span percentage × expiry × its tier's multiplier, where covered, and writes nothing otherwise; the price is the last trade within the band, else its own |
| MarginAmounts.OptionOrderBlocks | service/marginengine/margin_engine.py:446-484 | an order writing options blocks opening quantity × (premium + notional percentage × spot, or strike without one, × expiry × moneyness × its tier's multiplier), where covered, and writes nothing otherwise |
| MarginAmounts.NothingToBlock | service/marginengine/margin_engine.py:202-230 | an order that only closes, or needs no margin, is approved with nothing written whatever the prices |
| MarginAmounts.FillHolds | service/marginengine/margin_engine.py:486-526 | what each position holds after a fill, from quantity, prices and configuration: nothing when flat or a long option, the snapshot price's margin or the cached leg's, else what it held |
| MarginEngine.FillWithoutIdKeepsBlocks | queries/orders.yaml:17-20 | a fill whose snapshot has no id, or whose cursor the ledger cannot read, releases no block |
| MarginEngine.BlockOutlivesFills | service/marginengine/margin_engine.py:335-338 | then an order's block survives any fills and orders until that order is cancelled |
| MarginEngine.PositionHoldsLastRequired | service/marginengine/margin_engine.py:355-387 | after any run of checks, cancels and fills a position holds exactly the margin its last reconciled fill needed, never a sum of several |
| MarginEngine.UnpricedIsNeverMargined | service/marginengine/margin_engine.py:486-503 | a position none of whose fills is priced, as with any fill of an unrecognised symbol, stays unmargined through every run |
| MarginEngine.OnlyOrdersHoldMargin | service/marginengine/margin_engine.py:486-503 | where no fill of a user is priced, the wallet is blocked after any run for exactly the active blocks of its orders |
| MarginEngine.BlockedAfterFill | service/marginengine/margin_engine.py:335-387 | after a check and a whole fill, for any contract and any prices then and now: the block is gone if and only if the snapshot names the order and the ledger can read its rows; the position's margin is replaced if and only if the fill is reconciled, else it stays what it was; the wallet moves by exactly these two |
| MarginEngine.Engine.BuildContext | service/marginengine/margin_engine.py:446-484 | the terms an order is priced at, or a raise |
| MarginEngine.Engine.BuildContextForReconcile | service/marginengine/margin_engine.py:486-526 | the terms a filled position is priced at: a snapshot price alone, else the resolver without an order price |
| MarginEngine.Engine.CheckAndBlock | service/marginengine/margin_engine.py:174-272 | the facade takes the decision and leaves the ledger the specification says |
| MarginEngine.Engine.ReleaseOnCancel | service/marginengine/margin_engine.py:274-297 | a cancel releases the order's block |
| MarginEngine.Engine.ReconcileOnFill | service/marginengine/margin_engine.py:299-392 | release by id, then the margin of the new net quantity by contract and sign; nothing under a cursor the ledger cannot read |
| BrokerUpdates.RedeliveryIsHarmlessIff | service/orderUpdateService.py:202-219 | at every point of the feed, processing the deliveries equals processing them without repeated fill ids if and only if no repeat settles and none fails again after settlement with a mark on the cache |
| BrokerUpdates.EndsAlikeIff | service/orderUpdateService.py:202-219 | where no repeat marks the cache, the two end alike if and only if no repeat settles |
| BrokerUpdates.FillChangesIff | service/orderUpdateService.py:172-277 | a delivered fill changes anything if and only if it settles, or fails after settlement with a mark |
| BrokerUpdates.FillSettlesExactly | service/orderUpdateService.py:172-258 | a fill settles if and only if quantity and price are positive, its order is known with a user and a symbol, its id is unclaimed and its transaction commits; then exactly one trade, one id and the order's status change beside the position |
| BrokerUpdates.FailingTwiceFillsTwice | service/orderUpdateService.py:250-267 | one fill delivered twice, failing after settlement both times, is in the cached position twice with no trade recorded |
| BrokerUpdates.SettledOnce | service/orderUpdateService.py:202-258 | in particular whenever settlements commit |
| BrokerUpdates.ClaimedFlids | queries/orders.yaml:37-39 | the ids claimed are exactly those of deliveries that could commit |
| BrokerUpdates.AlwaysConsistent | service/orderUpdateService.py:254-258 | a filled order is EXECUTED exactly when its settled fills reach its quantity, else PARTIALLY_EXECUTED; no order is refunded twice, and every refund is the whole cost of a cash BUY; a refunded order is not pending |
| BrokerUpdates.RejectionRefundsInFull | service/orderUpdateService.py:279-332 | a rejection or cancellation of a pending order cancels it and refunds a cash BUY quantity × price; of any other order it does nothing |
| BrokerUpdates.NoRefundAfterFill | service/orderUpdateService.py:279-332 | once a fill has settled nothing delivered refunds the order |
| BrokerUpdates.BothRefundedAndFilledIff | service/orderUpdateService.py:172-258 | an order ends both refunded and filled if and only if a fill settles after its refund |
| BrokerUpdates.LateFillStillSettles | service/orderUpdateService.py:172-258 | and such a fill is not refused |
| BrokerUpdates.CancelThenFill | service/orderUpdateService.py:172-332 | from a pending paid BUY, a cancellation and then a fill leave it refunded in full and executed |
| BrokerUpdates.PositionsFollowFillsIff | service/orderUpdateService.py:250-267 | at every point of the feed each position shown is the fold of exactly the fills that settled, each once, in order, if and only if no fill that failed after settlement disturbed one |
| BrokerUpdates.LateFillDisturbsIff | service/positionService.py:209-245 | a fill rolled back after settlement changes the view of its own position and nothing else: unless it closed it back to a table row showing what the cache showed |
| BrokerUpdates.OrderUpdateService.HandleFill | service/orderUpdateService.py:172-277 | the handler performs the fill step: invalid events first, then the claim, settlement and status; a failure rolls back the database and leaves the position cache |
| BrokerUpdates.OrderUpdateService.FilledSoFar | queries/trade_history.yaml:14-19 | the filled quantity is the sum over the order's trades |
| BrokerUpdates.OrderUpdateService.HandleRejectedOrCanceled | service/orderUpdateService.py:279-332 | both cancel a pending order and refund a cash BUY, and do nothing otherwise |
| ImpliedVol.BisectionIv | service/optionChain/blackScholes.py:58-78 | raises exactly when an end of the range cannot be priced, or the range admits the price and a midpoint it probes cannot; None exactly when the price is outside the range; else the answer is in range and, for a non-decreasing price, prices within tol or lies within 4.99/2^(n+1) of every root |
| ImpliedVol.StepKeepsRoots | service/optionChain/blackScholes.py:68-76 | either half kept by a step holds every root |
| ImpliedVol.EnoughSteps | service/optionChain/blackScholes.py:68-78 | the bound falls below any width |
| ImpliedVol.ImpliedVolatility | service/optionChain/blackScholes.py:81-133 | None exactly for inputs not positive or a price at or below the intrinsic value, or outside the range after falling back; every answer lies in [0.01, 5]; converged, out of steps and fallen back are each told exactly by the Newton estimates; out of steps returns the last estimate; it raises exactly when it falls back and the bisection raises |
| ImpliedVol.EstimatesFollowTangents | service/optionChain/blackScholes.py:104-125 | each Newton estimate is where the tangent at the last one meets the price, from 0.3, within [0.01, 5], and only while the last misses by at least tol with a usable slope |
| ImpliedVol.NewtonQuietBisectionRaises | service/optionChain/blackScholes.py:109-133 | where nothing can be priced the Newton loop is left quietly and the bisection raises |
| NavReturns.CapPreservesReturnsIff | mutualfunds/nav_capping.py:21-25 | on a date-sorted series capping leaves all trailing returns and the day change unchanged if and only if nothing is older than the cutoff, a kept point is at least five years old, or the newest dropped point has no usable NAV |
| NavReturns.TargetsAreKept | mutualfunds/nav_capping.py:21-25 | five years back is sixty months back, and every period's target is on or after it and the cutoff before it, with day clipping |
| NavReturns.MonthsBack | mutualfunds/returns_calculator.py:34-36 | going back months moves the month by exactly so many and keeps the day, or takes the last day of a shorter month |
| NavReturns.MinusDaysCountsDays | mutualfunds/nav_capping.py:21-25 | going back n days goes back exactly n days of the Gregorian calendar |
| NavReturns.CapDropsPrefix | mutualfunds/nav_capping.py:25-25 | capping a sorted series drops exactly the points before the cutoff |
| NavReturns.FindInKept | mutualfunds/returns_calculator.py:59-64 | a lookup in the kept part finds the same point, or fails where the full series finds the last dropped one |
| NavReturns.PeriodAgrees | mutualfunds/returns_calculator.py:34-46 | the same exact condition for one period |
| NavReturns.ComputeTrailingReturns | mutualfunds/returns_calculator.py:25-48 | the loop sets each period's figure from the latest point on or before its target and skips unusable ones |
| NavReturns.TrailingReturnMeans | mutualfunds/returns_calculator.py:7-48 | the figures for 1, 6, 12, 36 and 60 months compare the latest NAV with that of the last point dated no later than so many months before it, and the day change with the point before it; none without a usable one |
| NavReturns.OrderedKeeps | mutualfunds/returns_calculator.py:29-30 | sorting permutes the points into date order |
| NavReturns.NavHistoryStorage.MergeAndWrite | mutualfunds/nav_history_storage.py:67-89 | the file becomes strictly date-sorted and records the old points overlaid by the new; other files and empty writes change nothing |
| NavReturns.MergedByDate | mutualfunds/nav_history_storage.py:71-73 | the dictionary merge keeps the last NAV written for each date |
| NavReturns.SortedItems | mutualfunds/nav_history_storage.py:74-79 | the sorted items are strictly by date and record the same map |
| NavReturns.WritesCompose | mutualfunds/nav_history_storage.py:54-59 | writing in two goes is writing at once, and rewriting the same points changes nothing |
| NavReturns.StoredFormIsUnique | mutualfunds/nav_history_storage.py:74-79 | the stored series is determined by what it records |
| TickIndex.TicksReachEveryHolder | service/optionChain/OptionChainService.py:79-84 | in every interleaving a tick reaches exactly the live caches that hold its token, and no empty index entry remains |
| TickIndex.SurplusIsWhatWasAdded | service/optionChain/OptionChainService.py:102-199 | over every order of actions, calls given up while queued and attachment of the feed included, what a token's count has beyond its live holders is exactly what releases from zero, calls given up and cache changes without a feed added |
| TickIndex.CountsExactly | service/optionChain/OptionChainService.py:69-73 | the same once every feed call has run or been given up |
| TickIndex.CountsFollowCaches | marketengine/ShoonyaOptionFeed.py:189-217 | with the feed attached, over every order of creations, releases and feed calls run or given up, count plus pending calls is live holders plus releases run from zero less subscriptions (net of releases) given up; so once none is pending a count is right if and only if those two are equal |
| TickIndex.InOrderNeverUnderflows | marketengine/ShoonyaOptionFeed.py:203-217 | calls run in the order they were made, none given up, never release from zero |
| TickIndex.OvertakingLeaks | service/optionChain/OptionChainService.py:128-135 | out of order they may: one release from zero leaves one subscription with no cache |
| TickIndex.ViewersServedIff | service/optionChain/OptionChainService.py:161-190 | every step keeps viewed chains live, except exactly an acquire of an evicted one |
| TickIndex.LateAcquireHoldsNothing | service/optionChain/OptionChainService.py:294-318 | which can happen from any state |
| TickIndex.IndexTokens | service/optionChain/OptionChainService.py:118-119 | the loop adds the key under each token |
| TickIndex.UnindexTokens | service/optionChain/OptionChainService.py:182-187 | the loop removes it and drops emptied entries |
| TickIndex.CountUp | marketengine/ShoonyaOptionFeed.py:191-197 | each token's count goes up by one; those nobody held are the ones to subscribe |
| TickIndex.CountDown | marketengine/ShoonyaOptionFeed.py:205-213 | each count goes down by one, the last is removed and unsubscribed |
| TickIndex.OptionChainService.CreateCache | service/optionChain/OptionChainService.py:102-121 | an existing cache is left alone; a new one enters caches and index together and asks for its subscription |
| TickIndex.OptionChainService.SetFeed | service/optionChain/OptionChainService.py:69-73 | attaches the feed and sends it nothing about caches already live |
| TickIndex.OptionChainService.Acquire | service/optionChain/OptionChainService.py:161-163 | one more viewer |
| TickIndex.OptionChainService.Release | service/optionChain/OptionChainService.py:165-190 | one viewer less; the last evicts cache and index entries together and asks for the release |
| TickIndex.ShoonyaOptionFeed.EnsureSubscribed | marketengine/ShoonyaOptionFeed.py:189-201 | the feed's counts after a subscription, and which tokens go to the broker |
| TickIndex.ShoonyaOptionFeed.Release | marketengine/ShoonyaOptionFeed.py:203-217 | the feed's counts after a release, and which tokens are given up |

## Left out

- HTTP routing, authentication, logging, connections, SDK calls, web sockets, streams and quotes: I/O.
- Decimal and float rounding and wall-clock columns: exact reals; the average-fill-price and timestamp columns are not kept.
- Failures in the middle of a Redis write and the lock's expiry: the position book is stated for fills that commit and locks that hold.
- BrokerUpdates.OrderUpdateService.HandleFill: where a delivery fails is left to the environment (`delivery`). In the code this handler's cursor yields tuples while the trade insert reads its row by name before settlement (`database/tradeHistoryPersistence.py:29-32`), so every delivery with a new fill id would be `FailsBefore`; `Commits`, and `FailsAfter` with FailingTwiceFillsTwice, speak of a cursor keyed by name, the latter also of a failure after settlement such as a lost connection or commit.
- PositionBook.PositionStore.ApplyFill: reads the table row on a cache miss as intended; the code passes two values (`database/positionPersistence.py:46-49`) to a query with three placeholders (`queries/positions.yaml:1-4`), so there a cache miss raises.
- ExecutionEngine.Engine.RollBack: restores `positions` with the rest, and marks the order FAILED on every raise; in the code the position cache keeps what settlement wrote (BrokerUpdates models that for one order), and a ValueError or a database error is re-raised with the status left alone.
- ExecutionEngine.Engine.RunTransaction: takes its rollback from RollBack, with the same two differences.
- ExchangeConservation.UnitsConserved: speaks of transactions that commit or leave no trace; a cached position that outlives the rollback of its transaction is outside the exchange model.
- ExchangeConservation.BookIsZeroSum: likewise of transactions that commit or leave no trace.
- ExchangeConservation.NoOverfill: the matches of the run use the book's remainder; FillsExactly has no such condition.
- ExchangeMoney.MoneyNeverRises: the same condition; MoneyExactly is without it.
- ExecutionEngine.Engine.CreateOrder: places F&O orders that the margin check would cancel again, so its laws cover more runs than occur; that check is `MarginEngine.Engine.CheckAndBlock`.
- Order creation failing after the debit, the retry loop around a locked book query, and duplicate client order ids.
- The row of `orders` and its row of `order_book` are one record in `Exchange`; a FAILED order keeps its book status there, so it stays matchable, as in the code. The code commits the first before it inserts the second (`service/executionEngine.py:106-116`): a cancel or amend in between changes only `orders` and moves the wallet, and a book row with the original terms then follows and can trade. Each such cancel of a paid BUY gives back the debit of an order that may still be filled, and each such amend moves the wallet by a difference the book never sees; Exchange and AmendProtocol speak of cancels and amends that find both rows.
- The book query orders by creation time; the model uses the order id for it, and reads NULL prices as the greatest.
- ExchangeMoney.MoneyExactly: plain STOP orders and futures are excluded because the code reprices the one and never debits the other; TriggerMoneyExactly and MatchMoney state what happens to them.
- WalletWriters.NoLostUpdates: a NULL balance and a wallet row created by hand are not modelled; the ledger holds one row per payment order.
- MarginEngine.PreTradeCoversFill: one price and one set of multipliers before and after, as the code gives no bound between the pre-trade tier and the fill's price; fills that find no price are BlockedAfterFill and UnpricedIsNeverMargined; the session-gap multiplier is always off in the engine and omitted.
- The broker-side margin provider (always absent today), the configuration lookup and the expiry multiplier are parameters, and so are the cached chain and the last internal trade the resolver finds.
- The end-of-day expiry close, which works from the table row and not the cached position, and the rest of the sweep service.
- PositionRows.ImplementationsAgree: one product and canonical symbols; several products are ProductsAddUp, and the row service's symbols are taken as given.
- BrokerUpdates.AlwaysConsistent: equity settlement into holdings and the margin effects of a fill are left to the other modules; the stale status read before a cancel is covered by the guarded UPDATE deciding alone.
- The Black-Scholes formula itself: the price and vega are parameters; NaN inputs are None.
- NavReturns.CapPreservesReturnsIff: the percentage and annualisation formula is a parameter; dates before year 1 do not raise.
- TickIndex.TicksReachEveryHolder: a tick is routed at one instant; the code awaits inside its loop over the index entry, so an eviction in between could disturb that loop.
- The strike window around the spot, REST seeding and cache contents of the option chain.
- Text stripping knows four blank characters, space, tab, newline and return, and capitals are ASCII.
- Symbol masters, broker field maps and adapters: table lookups; their answers are parameters.
