# The exchange's money path, modelled and proved

This project models the part of the exchange that moves money: the price-time order book, the matching engine
that survives crashes around it, the outbox relay, the settlement consumer that books every fill and close at
least once and in any order, the futures, option and fee arithmetic, the daily settlement, the margin-call
monitor, the recovery planner, the optimistic account lock, and the market maker that keeps the book filled.
Money is whole won; quantities and ids are integers; bigint and integer-valued numbers are `int`.

The layers compose. `OrderBook` is what `Engine` matches with; the engine's outbox is what `Relay` publishes and
what `EngineToSettlement` turns into the events of `Settlement`; `Bank`, `Fees`, `Futures` and `Ledger` are the
arithmetic every settlement path shares; recovery is compared with that same settlement. `JointMachine` puts
admission, the engines of all symbols, the outbox and settlement over one database into one step machine.

Where the source changes state, so does the model: `Orderbook`, `MatchingEngine`, `LockContext`,
`SettlementWorker`, `Service`, `Mutator` and `MarketMaker` are classes whose methods keep the source's loops and
branches, each proved equal to a function on values. The lemmas are about those functions, and so about the methods.

## Main results

- **Book.** Over every run of placements and cancels an order's quantity is what it filled, rests and had
  canceled, with exactly one close once it no longer rests; the book stays sorted and uncrossed, nobody trades
  with themselves, the batched loop is share-by-share matching, and an immediate-or-cancel order splits freely.
- **Engine.** Over every run of deliveries, redeliveries, cancels, crashes and restarts a placement is matched at
  most once; and unless a delivery rematches an order that already traded, no order overfills, every close tells
  exactly its trades, and no trade follows it. A cancel takes its order off the book and closes it, a placement
  trades as far as it can, and an event handled before changes nothing. A restart with nothing accepted left
  unconsumed restores the book; and the relay publishes every row, each order's close after its trades.
- **From match to settlement.** One machine over the engines and the database: orders are placed and refused, engines
  match, crash and restart, events are received late, twice or too early, and a day is settled, in any interleaving.
  In every state it reaches, an order's row and its pending fills are together exactly what its engine matched; every
  pending fill settles; and some deliveries settle the rest, after which each row shows what was matched and has
  ended exactly if it was closed. For shares all complete deliveries end alike. This holds of every run in which no
  delivery rematches, and a guard on restarts rules rematches out.
- **Funding.** Where buys are reserved with their fee, matching never fills one above what was reserved: no share
  trade raises a debt, and complete deliveries leave identical purses.
- **Books.** In every run of admissions, deliveries and daily settlements each cash and share hold equals what active
  orders reserve, and every ledger is a chain that sums to its balance. Each event moves exactly the cash, fees,
  shares and position rows that its price, quantity and orders say (`TradeEffects`, `PositionRows`).
- **Zero sum.** Floor division cannot leak: with positions closed out, futures profit over all accounts is exactly
  what hedge overflow left unpaired, option profit is zero, and total equity falls by exactly the fees.
- **Recovery.** The planner has no issue if and only if the missing trades would settle one by one, and its plan is
  then that settlement; its final cross-checks cannot fire when the recorded sums are true, and planning again finds
  nothing to do. Every state the whole machine reaches can be recovered.
- **Locking.** Every interleaving of optimistic transactions equals the committed ones run alone in commit order.
- **Market maker.** Whatever the exchange answers and however late cancellations take effect, the maker's own
  live orders stay tracked and never cross. A far relocation never blocks its first side, and completes exactly
  when no row of the old ladder at a level the new one lacks is in the second side's way.

## Where the code does not do what its text says, and exactly when

- `EngineOvermatch.OrderTradesTwice`: an order of 10 shares trades 14. A limit order is restored at a restart before
  its placed event was consumed, is hit as a maker, and is quarantined by the next restart because an order
  replayed before it crosses; its placed event, delivered without the recovery flag, is then matched in full. It
  takes a crossing order that replays first, so one of a reserve account of the symbol or one whose `createdAt` is
  earlier although it was placed later, and a placed event published only after the one that trades with it.
  `EngineRuns.DeliverSafeIff` says exactly which deliveries are safe, and `EngineQuiet.QuietRunsSafe` that engines
  which never restart with an unconsumed placement are.
- `SettlementFunding.LegacyHoldFallsShort`: a reservation fixed before fees took effect does not cover a fill after
  them. `SettlementFunding.FeeDebtIff` says when fees become debt.
- `ZeroSumRuns.FuturesZeroSum`: a hedge close that asks for more than its row holds books no counterpart for the
  rest; futures are zero-sum if and only if those leftovers cancel.
- `OptimisticLock.SecondUpdateNeverCommits`: a second update of one account in one transaction can never commit:
  the transaction sees the version its own first update wrote, and that is no longer the one it loaded
  (`OptimisticLock.UpdateSucceedsIff`). The settlement paths issue one update per account:
  `LockContext.UpdateAccount` demands it of its callers.
- `StreamRetention.MalformedReplyDropsIff`: the comment at packages/shared/src/stream-retention.ts:33-34 says that a
  malformed reply can at worst leave extra history. A reply whose pending count is missing or unreadable counts as
  zero (lines 52-53), and trimming at the last delivered entry then drops every pending one below it.
- `GuardAwareSizing.StopsIffAllPositive`: the loop at apps/bots/src/liquidity.ts:364-369 never stops when a visible
  price is zero or negative, that is, for a BUY side whose center is at or below ten ticks.
- `MakerStartup.BetweenIsUsable`: the search for a center further away at apps/bots/src/market-maker.ts:446-452 never
  runs, since a ladder at the clamped center is always clear of the guards.
- `MakerRelocation.DropStalls`: a far move down to a center of at most twelve ticks, and to less than half the old one,
  never completes. Bid levels the new ladder lacks keep their old rows, which nothing replaces while the move is
  staged, and they block the new asks. `MakerRelocation.WholeLadderRelocatesIff` says that no other move stalls.
- `GuardAwareSizing.SpendTheRest`: the comment above that loop promises shares in fractional-weight order; since the
  search restarts at the first level each time, the first affordable level takes all it can before the next.

## Model

| member | source | states |
|---|---|---|
| `OrderBook.Orderbook.InsertResting` | apps/matching-engine/src/orderbook.ts:78-88 | A resting order goes in behind every better or equal price of its side and before every worse one; the rest of the book is untouched. |
| `OrderBook.Orderbook.MatchOpposite` | apps/matching-engine/src/orderbook.ts:104-147 | The while loop over the opposite list, in place, ends with exactly the fills, closes, remainder and last price of the specified matching. |
| `OrderBook.Orderbook.ApplyOrder` | apps/matching-engine/src/orderbook.ts:91-185 | The book and the match result after one order are those of `Place`: self-hit, filled, immediate-or-cancel and resting cases included. |
| `OrderBook.Orderbook.CancelOrder` | apps/matching-engine/src/orderbook.ts:188-196 | Removes and returns the named order from whichever side holds it; nothing else changes. |
| `OrderBookLaws.PlaceSound` | apps/matching-engine/src/orderbook.ts:91-185 | One placement under a new id keeps the book sorted by price then arrival, uncrossed, with distinct live rows. |
| `OrderBookLaws.MatchStops` | apps/matching-engine/src/orderbook.ts:96-147 | The loop stops only when the quantity is used up, nothing is left, the next price is one the order does not allow (none is out of reach of a market order without a bound), or at the account's own order; no fill passes the price bound or pairs an account with itself. |
| `OrderBookLaws.LeftoverHasNoCounterparty` | apps/matching-engine/src/orderbook.ts:91-185 | Whatever an order rests or cancels, the other side is then empty, at a price it does not allow, or headed by its own account. |
| `OrderBookLaws.PlaceConserves` | apps/matching-engine/src/orderbook.ts:91-185 | For every id: what an order fills, rests and cancels adds up to what it had. |
| `OrderBookLaws.PlaceCloses` | apps/matching-engine/src/orderbook.ts:113-185 | Exactly the orders that leave the book, or never rest, are closed, once each, with what they filled. |
| `OrderBookLaws.WithoutEffects` | apps/matching-engine/src/orderbook.ts:188-196 | A cancel takes out exactly the named order, if it rests, and keeps the book sound. |
| `OrderBookRuns.EveryRun` | apps/matching-engine/src/orderbook.ts:78-217 | Any sequence of placements under new ids and of cancels keeps the book sound and its history exact. |
| `OrderBookRuns.Conservation` | apps/matching-engine/src/orderbook.ts:91-196 | Over every run, quantity is filled plus resting plus canceled, and an order has one close exactly when it does not rest. |
| `OrderBookRuns.Orderly` | apps/matching-engine/src/orderbook.ts:78-185 | Over every run both sides are strictly ordered, best bid is below best ask, and no fill pairs an account with itself. |
| `OrderBookShares.BestIsHead` | apps/matching-engine/src/orderbook.ts:96-104 | The head of a sorted side is the one maker that price-time priority picks among all rows. |
| `OrderBookShares.MatchRefinesShares` | apps/matching-engine/src/orderbook.ts:104-147 | The batched loop gives the same book, shares and remainder as matching one share at a time with the best maker. |
| `OrderBookShares.IocByShares` | apps/matching-engine/src/orderbook.ts:104-168 | An immediate-or-cancel order's book, shares and cancelled rest, read off the share-by-share reference. |
| `OrderBookShares.IocSplits` | apps/matching-engine/src/orderbook.ts:91-185 | An immediate-or-cancel order of a + b is one of a then one of b on the same terms: same book, same shares, same total canceled. |
| `OrderBookLevels.Aggregate` | apps/matching-engine/src/orderbook.ts:199-217 | Levels are the best `depth` prices, worsening, each with the exact total resting there; a price is missing only if `depth` better ones are shown. |
| `MatchingEngine.MatchingEngine.RememberEvent` | apps/matching-engine/src/engine.ts:336-342 | The remembered ids keep insertion order and drop the oldest beyond the cap. |
| `MatchingEngine.MatchingEngine.PruneDurablyClosedOrders` | apps/matching-engine/src/engine.ts:175-182 | Exactly the resting rows with a durable close marker are taken out. |
| `MatchingEngine.MatchingEngine.PersistSettlementEvents` | apps/matching-engine/src/engine.ts:479-498 | Each event becomes an outbox row in order, and each close also a marker. |
| `MatchingEngine.MatchingEngine.PersistPlacedEvent` | apps/matching-engine/src/engine.ts:500-547 | The whole transaction commits if the event id was unclaimed; otherwise nothing changes. |
| `MatchingEngine.MatchingEngine.PersistCancelEvent` | apps/matching-engine/src/engine.ts:550-559 | Likewise for a cancel, with its close if there is one. |
| `MatchingEngine.MatchingEngine.HandlePlacedEvent` | apps/matching-engine/src/engine.ts:660-709 | A placement already resting is claimed, a closed or recovered one skipped, a new one matched on a copy and committed before the copy becomes the book. |
| `MatchingEngine.MatchingEngine.HandleCancelEvent` | apps/matching-engine/src/engine.ts:674-742 | A cancel closes the resting order, or a missing one whose row and trades agree, unless already closed or claimed. |
| `MatchingEngine.MatchingEngine.HandleEvent` | apps/matching-engine/src/engine.ts:630-746 | The whole handler is the specified delivery step. |
| `MatchingEngine.MatchingEngine.BootstrapBook` | apps/matching-engine/src/engine.ts:188-308 | The listing loop and the sort give the specified restart, whatever the replay order. |
| `Engine.SettlementEventsRead` | apps/matching-engine/src/engine.ts:437-477 | The events of a result read back as exactly its fills and its closes, fills first. |
| `EngineSafety.PruneIdle` | apps/matching-engine/src/engine.ts:175-182 | With one engine, pruning before a delivery finds nothing. |
| `EngineSafety.PlacedKeepsInv` | apps/matching-engine/src/engine.ts:500-547 | Matching and committing a fresh placement keeps records, closes, markers and book in exact agreement. |
| `EngineSafety.CancelKeepsInv` | apps/matching-engine/src/engine.ts:353-404 | A handled cancel, of a resting or a missing order, keeps them in agreement. |
| `EngineSafety.DeliverKeepsInv` | apps/matching-engine/src/engine.ts:630-746 | Any delivery but a rematch keeps the engine's invariant. |
| `EngineRuns.EngineSafe` | apps/matching-engine/src/engine.ts:500-746 | Over every run without a rematch: no overfill, one truthful close per order, no trade after its close. |
| `EngineRuns.RematchBreaks` | apps/matching-engine/src/engine.ts:630-746 | Matching an order that already traded always breaks the agreement. |
| `EngineRuns.DeliverSafeIff` | apps/matching-engine/src/engine.ts:315-329 | A delivery keeps the agreement if and only if it does not rematch. |
| `EngineRuns.MatchedOnce` | apps/matching-engine/src/engine.ts:411-430 | Over every run the placed event of an order is matched at most once. |
| `EngineRestart.RestoreKeeps` | apps/matching-engine/src/engine.ts:90-103 | A row is listed exactly when it would not cross what is listed; the listing stays live, distinct and true to the records. |
| `EngineRestart.BootstrapSound` | apps/matching-engine/src/engine.ts:188-308 | In any replay order, and while settlement lags, the restored book is sorted, uncrossed and agrees with the records. |
| `EngineQuiet.NothingQuarantined` | apps/matching-engine/src/engine.ts:272-300 | Rows that do not cross one another are all restored. |
| `EngineQuiet.RestartRestores` | apps/matching-engine/src/engine.ts:188-308 | After a crash and anything but a restart, if every accepted placement was consumed, the restart brings back exactly the same orders, sides, prices, quantities and last price. |
| `EngineQuiet.QuietRunsSafe` | apps/matching-engine/src/engine.ts:188-308 | Engines that only restart with every placement consumed never rematch. |
| `EngineOvermatch.OrderTradesTwice` | apps/matching-engine/src/engine.ts:188-308 | A concrete run on which an order of 10 trades 14. |
| `EngineNames.RunKeepsNames` | apps/matching-engine/src/engine.ts:437-547 | Over every run, fills and closes name their orders' own accounts and sides, at prices both orders allow. |
| `EngineEvents.CancelTakesOff` | apps/matching-engine/src/engine.ts:710-742 | A cancel delivered while its order rests takes exactly that order off the book and writes one outbox row: its close, as canceled, with what it traded. |
| `EngineEvents.MissingCancelClosesIff` | apps/matching-engine/src/engine.ts:353-404 | A cancel of an order the book does not hold closes it if and only if its row is active and shows exactly its recorded trades; otherwise it only claims the event. |
| `EngineEvents.PlacementTakesEffect` | apps/matching-engine/src/engine.ts:660-709 | A placement delivered for the first time is claimed, trades until nothing it may trade with is left, and then rests with the remainder or is closed. |
| `EngineEvents.RedeliveryChangesNothing` | apps/matching-engine/src/engine.ts:500-559 | An event claimed before changes no record and no book, whatever the engine has forgotten since. |
| `EngineEvents.RestingIsOnlyClaimed` | apps/matching-engine/src/engine.ts:660-709 | The placement of an order that rests already is claimed, and nothing else happens. |
| `EngineEvents.ReclaimedChangesNothing` | apps/matching-engine/src/engine.ts:310-329 | A reclaimed message whose order shows an earlier handling - a cancel without an active row, a placement whose row moved on or that traded - matches and closes nothing. |
| `EngineEvents.PruningDropsClosed` | apps/matching-engine/src/engine.ts:175-182 | Whatever other engines closed, pruning takes out exactly the rows with a close marker and keeps the book sound. |
| `EngineEvents.DeliveredIsRemembered` | apps/matching-engine/src/engine.ts:630-659 | A delivered event is remembered, and delivering it again while it is does nothing at all. |
| `EngineEvents.RemembersLatest` | apps/matching-engine/src/engine.ts:336-342 | Only the oldest remembered id is ever forgotten, and only when the memory is full. |
| `EngineEvents.ClosedIsLeftAlone` | apps/matching-engine/src/engine.ts:310-335 | Neither a placement nor a cancel does anything for an order that was closed before. |
| `Relay.PublishedInOrder` | apps/matching-engine/src/engine.ts:581-618 | Under deaths between publish and mark and overlapping passes, first appearances on the stream follow outbox order without gaps. |
| `Relay.FillsBeforeClose` | apps/matching-engine/src/engine.ts:437-498 | A close first appears only after every trade it tells of has appeared. |
| `Relay.OnePassPublishes` | apps/matching-engine/src/engine.ts:581-618 | An undisturbed pass publishes and marks exactly the oldest unpublished rows, a batch of them, in order. |
| `Relay.EveryRowGetsPublished` | apps/matching-engine/src/engine.ts:576-618 | From whatever interrupted and overlapping passes left behind, some further passes publish and mark every row. |
| `EngineToSettlement.PendingGrows` | apps/matching-engine/src/engine.ts:437-498 | What new outbox rows add to an order's pending quantity is exactly what their trades record for it. |
| `EngineToSettlement.RowReady` | apps/matching-engine/src/engine.ts:437-477 | Every outbox row names the accounts, symbol and sides of its orders, at a price the buyer's reservation pays. |
| `JointMatching.WorkKeepsInv` | apps/matching-engine/src/engine.ts:630-746 | An engine at work, with its new rows on the stream, keeps engines, stream and database in agreement, unless it rematches. |
| `JointSettling.ReceiveKeepsInv` | apps/settlement/src/main.ts:268-295 | So does receiving any event, fresh, repeated or too early, with the engine reading the rows it advanced. |
| `JointSettling.PlaceKeepsInv` | apps/api/src/order/order.service.ts:183-257 | So does placing an order, or refusing it, with row, reservation and placed event in one transaction. |
| `JointSettling.DailyKeepsInv` | apps/api/src/futures/futures-settlement.service.ts:192-291 | So does a day's settlement of a position. |
| `JointSettling.SettlesWhatIsRecorded` | apps/settlement/src/main.ts:419-477 | Settlement only books trades the engine recorded and ends an order only after its close: what the engine's own model asks of it. |
| `JointRuns.MatchedIsBookedOrPending` | packages/shared/src/settlement.ts:18-38 | In every reachable state an order's filled quantity plus its pending fills is what its engine matched, at most its quantity, and fills are pending only for active orders. |
| `JointRuns.PendingEventsSettle` | packages/shared/src/settlement.ts:18-38 | In every reachable state each pending fill settles, and a pending close waits for its order's fills and for nothing else. |
| `JointRuns.WhatIsMatchedSettles` | apps/settlement/src/main.ts:331-477 | From every reachable state some deliveries settle all that is on the stream; then each row shows what was matched and has ended exactly if its engine closed it. |
| `JointRuns.SpotDeliveriesEndAlike` | apps/settlement/src/main.ts:331-477 | From every reachable state any two complete deliveries of shares end with the same rows, holds, shares and equity. |
| `JointRuns.RunKeepsBooks` | packages/db/scripts/check-consistency.ts:73-132 | Over every run of the whole machine holds are exact and each ledger is a chain to its balance. |
| `JointRuns.EnginesRun` | apps/matching-engine/src/engine.ts:188-746 | Every engine of the machine goes through a run of the engine model, its settlement steps enabled there. |
| `JointQuiet.GuardedRunsReach` | apps/matching-engine/src/engine.ts:188-308 | If engines restart only with every accepted placement consumed, no delivery of the machine rematches. |
| `Ledger.ChainExtends` | apps/settlement/src/main.ts:356-386 | Appending rows that start at the last balance keeps the chain and adds their deltas. |
| `Fees.FeeRowsLink` | apps/settlement/src/trading-fees.ts:12-46 | The rows of a charge lead from the balance before it to the charged balance and name no other account. |
| `Fees.SettleTradingFees` | apps/settlement/src/trading-fees.ts:12-46 | The shortfall, the loop over sides and the ledger writes give the specified cash and rows; bots and times before fees pay nothing. |
| `Fees.OrderHoldWithFee` | packages/shared/src/trading-fees.ts:9-23 | The reservation of a unit is its principal and, once fees apply, exactly one basis point of its price on top, rounded up. |
| `LedgerReasons.SpotReasons` | apps/settlement/src/main.ts:354-386 | Reason by reason, the rows of a share trade add up for each account to the price paid, the price received, one fee a side, and what the fees had to lend it. |
| `LedgerReasons.DerivativeReasons` | apps/settlement/src/futures.ts:93-121 | Likewise for futures and options: the profit or premium that changed the balance, one fee a side, and what was lent. |
| `SettlementFunding.FeeDebtIff` | apps/settlement/src/trading-fees.ts:21-34 | Fees become debt exactly when they would take the balance below the hold. |
| `SettlementFunding.FillIsFunded` | packages/shared/src/trading-fees.ts:9-23 | A fill at or below the bound, with its own rounded-up fee, costs at most the hold it uses. |
| `SettlementFunding.AnySplitIsFunded` | packages/shared/src/trading-fees.ts:9-23 | So does any split of an order into fills. |
| `SettlementFunding.LegacyHoldFallsShort` | packages/shared/src/trading-fees.ts:15-23 | A hold fixed before fees does not cover a share bought after. |
| `SettlementFunding.ReservedIsCovered` | apps/settlement/src/main.ts:354-386 | A spot buy reserved with its fee and filled within its bound is covered, fee included. |
| `JointFunding.MatchedIsCovered` | apps/matching-engine/src/orderbook.ts:96-147 | Every share fill on the stream was matched within its buyer's bound, so the reservation covers it and its fee. |
| `JointFunding.SpotDeliveryRaisesNoDebt` | apps/settlement/src/trading-fees.ts:12-46 | In every state such runs reach, settling a share trade or any close changes no debt and leaves every balance at or above its hold. |
| `JointFunding.MatchedOrdersRaiseNoDebt` | apps/api/src/order/order.service.ts:183-205 | Over every such run of an exchange that lists shares no debt ever changes. |
| `JointFunding.FundedPursesAgree` | apps/settlement/src/main.ts:354-386 | From every state such runs reach, any two complete deliveries of shares leave each account the same balance, hold and debt. |
| `FuturesLaws.FillExact` | packages/shared/src/futures.ts:238-268 | A fill moves the signed entry value by exactly delta times price plus what it realizes, closing and flipping included. |
| `FuturesLaws.RowFillExact` | packages/shared/src/futures.ts:275-287 | The same on hedge rows, which never flip; overflow is exactly what a close asked beyond the row. |
| `FuturesLaws.RealizedExact` | packages/shared/src/futures.ts:238-287 | Over any fills, realized profit is proceeds minus purchases plus the open basis, to the won. |
| `FuturesLaws.AverageBounded` | packages/shared/src/futures.ts:238-268 | The average entry price stays between the lowest and highest opening price since flat. |
| `FuturesLaws.CashExact` | packages/shared/src/futures.ts:316-325 | A realized amount moves balance minus debt by exactly itself; a loss takes cash only down to the hold, and debt is repaid first. |
| `HoldingCost.SharesAreALongRow` | packages/shared/src/settlement.ts:72-81 | A fill of shares is a fill of a long row of unit value one, as long as no more is sold than held. |
| `HoldingCost.HoldingCostExact` | packages/shared/src/settlement.ts:72-81 | Realized profit plus remaining basis is proceeds minus purchases to the won, and cost per share stays within the purchase prices since empty. |
| `MarginCall.AssessFuturesRisk` | packages/shared/src/futures.ts:415-436 | The loop's totals, equity, shortfall and emergency list are the sums and conditions they are named for. |
| `MarginCall.EmergencyIff` | packages/shared/src/futures.ts:424-432 | A position is an emergency exactly when closing it at the mark would lose nine tenths of the margin held for it. |
| `MarginCall.MarginsRoundUp` | packages/shared/src/futures.ts:174-189 | A position needs, for every contract, the least whole amount that covers the initial rate, and to be kept the least whole amount that covers the maintenance rate of all of them. |
| `MarginCall.ClosingIsNeutral` | packages/shared/src/futures.ts:408-412 | Closing any part at the mark turns unrealized into realized profit, to the won. |
| `MarginCall.LiquidationShare` | packages/shared/src/futures.ts:442-448 | The closed part of a position is at least the shortfall's share of the initial margin. |
| `MarginCall.LiquidationIsLeast` | packages/shared/src/futures.ts:442-448 | It is the fewest contracts that cover that share, none without a shortfall or a position, and all of them when the shortfall is the whole margin. |
| `MarginCall.LiquidationKeepsEquity` | apps/api/src/futures/futures-risk.service.ts:157-178 | Closing every target at its mark leaves equity where it was. |
| `MarginCall.LiquidationCures` | apps/api/src/futures/futures-risk.service.ts:157-178 | After it there is no shortfall if and only if equity is not negative; then equity covers maintenance too. |
| `RiskTick.Decide` | apps/api/src/futures/futures-risk.service.ts:117-190 | One account's tick decides as the rules say, emergency first, and names the targets they call for. |
| `RiskTick.DecisionMeans` | apps/api/src/futures/futures-risk.service.ts:117-190 | Read off the decision: who is left alone and why, a call resolved only at full initial margin, opened only below maintenance and for exactly what is missing, closed out only past its deadline or in an emergency. |
| `RiskTick.EmergencyTargetsAre` | apps/api/src/futures/futures-risk.service.ts:143-153 | Emergency targets are exactly the emergency positions, whole, at their marks. |
| `RiskTick.DeadlineTargetsClose` | apps/api/src/futures/futures-risk.service.ts:162-173 | A deadline target has the sign of its position and no more contracts. |
| `RiskTick.TargetsClose` | apps/api/src/futures/futures-risk.service.ts:162-173 | Deadline targets close each position by its own liquidation quantity and no other target names it. |
| `RiskTick.TargetsCloseLeast` | apps/api/src/futures/futures-risk.service.ts:162-173 | So each position is closed by the fewest contracts that cover its share of the shortfall. |
| `RiskTick.DeadlineCloseOutSuffices` | apps/api/src/futures/futures-risk.service.ts:157-178 | A filled deadline close-out leads to no new call while there is equity, and leaves a shortfall when there is none. |
| `BankLaws.SpotCashEffect` | apps/settlement/src/main.ts:354-386 | A spot fill's cash changes exactly the parties' purses, as computed per purse, and every account's rows link its old balance to its new one. |
| `BankLaws.SpotMoves` | apps/settlement/src/main.ts:354-386 | A spot fill frees exactly the buyer's hold and moves equity by cost and fees alone. |
| `BankLaws.DerivativeCashEffect` | apps/settlement/src/futures.ts:93-121 | A derivative fill's cash changes exactly the parties' purses, and every ledger follows. |
| `BankLaws.DerivativeMoves` | apps/settlement/src/options.ts:66-83 | It frees exactly the orders' margins and moves equity by profit or premium and fees. |
| `BankLaws.SettleAmountEffect` | apps/api/src/futures/futures-settlement.service.ts:217-228 | A daily amount moves the account's equity by exactly itself, always succeeds, and keeps the chain. |
| `SettlementWorker.LockContext.UpdateAccount` | packages/concurrency/src/optimistic.ts:60-73 | One update per account and transaction, refused exactly by the database's balance and hold checks. |
| `SettlementWorker.LockContext.WriteConsideration` | apps/settlement/src/main.ts:366-377 | The running balances of buyer and seller give the two consideration rows, for a self-trade too. |
| `SettlementWorker.LockContext.SettleSpotCash` | apps/settlement/src/main.ts:354-386 | The delta maps, rows and per-account charges give the specified spot cash, or its first error. |
| `SettlementWorker.LockContext.SettleOneLeg` | apps/settlement/src/futures.ts:51-91 | One leg writes its position row and its realized row as specified. |
| `SettlementWorker.LockContext.SettleBothLegs` | apps/settlement/src/futures.ts:35-91 | Both legs in turn, with releases and profits added up per account, a self-trade included. |
| `SettlementWorker.LockContext.PayFuturesParty` | apps/settlement/src/futures.ts:93-121 | A party's margin is freed, its profit settled against cash and debt, then its fees charged, in one update. |
| `SettlementWorker.LockContext.PayOptionParty` | apps/settlement/src/options.ts:66-83 | A party's premium moves, its margin is freed, then its fees charged, in one update. |
| `SettlementWorker.LockContext.PayParties` | apps/settlement/src/options.ts:66-83 | Both parties, or the one that trades with itself, as specified. |
| `SettlementWorker.SettlementWorker.SettleTrade` | apps/settlement/src/main.ts:331-435 | A trade's transaction commits the specified database, or fails with the specified error and changes nothing. |
| `SettlementWorker.SettlementWorker.CloseOrder` | apps/settlement/src/main.ts:437-477 | A close's transaction likewise; it waits while fills it tells of are missing. |
| `SettlementWorker.SettlementWorker.ProcessMessage` | apps/settlement/src/main.ts:268-295 | A message is acknowledged only if its event is claimed; a failure or unreadable payload changes nothing. |
| `SettlementWorker.SettlementWorker.ProcessMessages` | apps/settlement/src/main.ts:268-295 | A batch is processed in order, each message on its own. |
| `TradeEffects.TradeFillsOrders` | packages/shared/src/settlement.ts:25-38 | A settled trade fills both order rows by its quantity, which are filled exactly when nothing is left, claims its event, and changes no other row. |
| `TradeEffects.SpotTradePays` | apps/settlement/src/main.ts:354-386 | A share trade moves each account's equity by price times quantity and one fee a side, a basis point rounded up unless it pays none, and frees the buyer's reservation for that quantity. |
| `TradeEffects.SharesMove` | apps/settlement/src/main.ts:388-417 | The shares leave the seller's holding and reservation for the buyer's holding at cost; the seller's basis gives up the sold part, rounded down, and the profit recorded is the difference. |
| `TradeEffects.FutureTradePays` | apps/settlement/src/futures.ts:51-121 | A futures trade pays each party what its own row realized at the price, less one fee, and frees both orders' margins. |
| `TradeEffects.OptionTradePays` | apps/settlement/src/options.ts:37-83 | An option trade moves the premium from buyer to seller, less one fee each, and frees both orders' margins. |
| `TradeEffects.CloseEnds` | apps/settlement/src/main.ts:437-477 | A close that tells of exactly its order's fills ends the row with its status and gives back what was still reserved, cash or shares; one that tells of fewer only claims its event, one that tells of more fails. |
| `PositionRows.FutureTradeMovesNamedRows` | apps/settlement/src/futures.ts:51-74 | A futures trade moves the row each order names and no other: an opening fill by its whole quantity, a hedge close toward zero by at most the row; each row then ties up its margin, rounded up. |
| `PositionRows.OptionTradeMovesNetRows` | apps/settlement/src/options.ts:37-65 | An option trade moves both net rows by its whole quantity and no other row; contracts owed tie up the writer's margin. |
| `PositionRows.OtherEventsMoveNoRow` | apps/settlement/src/main.ts:331-477 | Share trades and closes move no position. |
| `PositionRows.LeverageRates` | packages/shared/src/futures.ts:162-167 | A leverage's initial rate is the smallest whole rate that covers its share; its maintenance rate is two thirds of that, rounded down. |
| `SettlementHolds.TradeKeepsCash` | apps/settlement/src/main.ts:331-435 | A settled trade leaves every cash hold equal to what active orders reserve, and no purse breaks its checks. |
| `SettlementHolds.TradeKeepsShares` | apps/settlement/src/main.ts:388-417 | The same of share holds and holdings. |
| `SettlementHolds.CloseKeepsHolds` | apps/settlement/src/main.ts:437-477 | A close releases exactly what its order still reserved. |
| `SettlementHolds.DeliverKeepsHolds` | apps/settlement/src/main.ts:331-477 | Any delivery, fresh or repeated, keeps every reservation exact. |
| `OrderAdmission.AdmitKeepsHolds` | apps/api/src/order/order.service.ts:183-223 | Admitting an order reserves exactly its cash or shares. |
| `OrderAdmission.AdmittedIff` | apps/api/src/order/order.service.ts:197-257 | An order is admitted exactly when the cash it reserves is free beyond holds and position margins, or the shares are; then it is open and unfilled with exactly that reserved. |
| `SettlementRuns.EveryRunKeepsBooks` | packages/db/scripts/check-consistency.ts:73-132 | Over every run of admissions, deliveries and daily settlements, holds are exact and ledgers are chains that sum to their balances. |
| `SettlementProgress.TradeSucceeds` | packages/shared/src/settlement.ts:26-38 | A pending fill always settles: no late trade, overfill or failed check. |
| `SettlementProgress.CloseSucceedsIff` | packages/shared/src/settlement.ts:18-23 | A pending close fails exactly while its order has fills to come. |
| `SettlementProgress.NeverWedges` | apps/settlement/src/main.ts:331-477 | While anything is pending, some pending event succeeds now. |
| `SettlementConfluence.DeliverKeepsPlan` | apps/settlement/src/main.ts:331-477 | A delivery keeps the database consistent with the events still pending. |
| `SettlementConfluence.RunKeepsPlan` | apps/settlement/src/main.ts:268-295 | So does any sequence of deliveries. |
| `SettlementForecast.CanFinish` | apps/settlement/src/main.ts:268-295 | From any consistent database some order of delivery settles everything. |
| `SettlementForecast.SettledAsForecast` | apps/settlement/src/main.ts:331-477 | Once all is settled, rows, equity and share counts are those forecast from the start. |
| `SettlementForecast.Confluent` | apps/settlement/src/main.ts:331-477 | Any two orders of delivery that settle everything end with the same rows, holds, shares and spot equity. |
| `SettlementFunding.ConfluentBalances` | apps/settlement/src/main.ts:354-386 | With every fill funded, balances and debts agree too. |
| `DailySettlement.SettlePositionEffect` | apps/api/src/futures/futures-settlement.service.ts:192-291 | A settlement succeeds on an existing account, realizes exactly when the position is open and unclaimed, and leaves the claim. |
| `DailySettlement.SettlementPays` | apps/api/src/futures/futures-settlement.service.ts:192-291 | A settlement pays a future its contracts at the price less their entry value, an option its contracts at the settlement value, and records the whole position as closed. |
| `DailySettlement.SettlesOnce` | apps/api/src/futures/futures-settlement.service.ts:192-216 | Repeating it, at any price, changes nothing. |
| `DailySettlement.SettlementKeepsBooks` | apps/api/src/futures/futures-settlement.service.ts:217-241 | It keeps holds exact and ledgers chained. |
| `FuturesSettlementService.Service.SettleOpen` | apps/api/src/futures/futures-settlement.service.ts:129-142 | The loop settles each open position of the contract once, in some order and all at the one price, touches no other contract, and counts what it closed and realized; a failure keeps what was committed. |
| `FuturesSettlementService.Service.SettleContract` | apps/api/src/futures/futures-settlement.service.ts:110-143 | A contract done today is skipped, one without a price and with open positions fails, any other is settled position by position at its price; done is recorded only at its end, with price, count and profit. |
| `FuturesSettlementService.Service.Settle` | apps/api/src/futures/futures-settlement.service.ts:100-189 | The day can be resumed, at each contract's own price; once all contracts are done it changes nothing. |
| `ContractBooks.LegBooks` | apps/settlement/src/futures.ts:51-74 | A leg moves the totals of contracts and signed entry values by exactly its own move. |
| `ContractBooks.RealizedByLegs` | apps/settlement/src/futures.ts:75-88 | The realized rows add up to both legs' profit, in total and per account. |
| `ZeroSumRuns.FuturesZeroSum` | apps/settlement/src/futures.ts:51-121 | From flat to flat, futures profit over all accounts is what overflow left unpaired, and equity moves by that less the fees. |
| `ZeroSumRuns.PairedFuturesAreZeroSum` | apps/settlement/src/futures.ts:51-121 | Without overflow profit sums to zero and equity falls by exactly the fees. |
| `ZeroSumRuns.OptionsZeroSum` | apps/settlement/src/options.ts:37-83 | Option profit sums to zero and equity falls by exactly the fees. |
| `ZeroSumRuns.OptionCashIsRealized` | apps/api/src/futures/futures-settlement.service.ts:247-291 | Each account's option cash, fees aside, is exactly the profit recorded for it. |
| `OptimisticLock.Serializable` | packages/concurrency/src/optimistic.ts:34-102 | Every interleaving leaves the tables of the committed transactions run alone in commit order, and each read what it would have read there, owned rows included. |
| `OptimisticLock.UpdateSucceedsIff` | packages/concurrency/src/optimistic.ts:60-73 | In every run an account update succeeds exactly when its transaction has not written that account and nobody who named it committed since it was loaded. |
| `OptimisticLock.SecondUpdateNeverCommits` | packages/concurrency/src/optimistic.ts:60-73 | In every run, updating an account twice dooms the transaction, since it compares its own new version with the one loaded. |
| `OptimisticLock.VersionsCountCommits` | packages/concurrency/src/optimistic.ts:60-86 | A version counts exactly the commits that named its account. |
| `OptimisticMutator.Mutator.WithAccountLock` | packages/concurrency/src/optimistic.ts:34-102 | Retries only conflicts, up to the limit and at least once, returns the first other outcome, and counts attempts, conflicts and failures exactly. |
| `Recovery.CollectTargets` | packages/db/scripts/settlement-recovery-plan.ts:584-659 | The loop over orders adds up every account's and holding's targets, and has no issue exactly when every order fits. |
| `Recovery.ValidOrderIff` | packages/db/scripts/settlement-recovery-plan.ts:199-243 | An order is sound exactly when filled, recorded and ordered quantities come in this order, an ended one has nothing to come, and a rejected one never traded. |
| `Recovery.RebuildCash` | packages/db/scripts/settlement-recovery-plan.ts:661-677 | Every hold becomes its target, an issue exactly when a balance cannot carry one, and the adjustments are the changes. |
| `Recovery.RebuildShares` | packages/db/scripts/settlement-recovery-plan.ts:679-710 | The same of share reservations, with an issue for a target without a holding. |
| `Recovery.BuildReservationPrestate` | packages/db/scripts/settlement-recovery-plan.ts:578-721 | No issue if and only if orders fit and targets can be held; then the rebuilt state holds exactly the targets. |
| `RecoveryReplay.ValidateOrders` | packages/db/scripts/settlement-recovery-plan.ts:199-243 | Exactly the orders whose row contradicts its recorded fills are invalid. |
| `RecoveryReplay.CheckTrade` | packages/db/scripts/settlement-recovery-plan.ts:287-358 | A trade has no issue exactly when orders, accounts and symbol fit it. |
| `RecoveryReplay.ReplayOne` | packages/db/scripts/settlement-recovery-plan.ts:282-516 | A trade is replayed as specified or leaves the simulated tables alone. |
| `RecoveryReplay.ReplayTrades` | packages/db/scripts/settlement-recovery-plan.ts:278-516 | The loop is the fold of that replay. |
| `RecoveryReplay.TradersAreMarked` | packages/db/scripts/settlement-recovery-plan.ts:474-541 | A clean replay marks exactly the accounts that traded, so the plan lists them even when their money ends where it was. |
| `RecoveryReplay.BuildSettlementPlan` | packages/db/scripts/settlement-recovery-plan.ts:250-559 | No issue if and only if every order is valid and every trade replays; the plan lists exactly the changed rows. |
| `RecoveryPlan.CrossChecksNeverFire` | packages/db/scripts/settlement-recovery-plan.ts:749-778 | With true recorded sums and no other issue, replay ends exactly at the final reservations. |
| `RecoveryPlan.BuildRecoveryPlan` | packages/db/scripts/settlement-recovery-plan.ts:729-795 | An issue-free plan is the clean replay on rebuilt reservations and ends at the final ones; with true sums a plan is issue-free if and only if nothing stands against it before the cross-checks. |
| `RecoveryEffects.NothingLeftToPlan` | packages/db/scripts/recover-unsettled-trades.ts:225-283 | Planning again on the applied state is issue-free and plans nothing. |
| `RecoverySettles.PlanEqualsSettlement` | packages/db/scripts/settlement-recovery-plan.ts:250-559 | Settling the missing trades one by one succeeds and leaves exactly the database the applied plan leaves. |
| `RecoveryComplete.PlannableIffSettles` | packages/db/scripts/settlement-recovery-plan.ts:250-559 | Of a database with exact holds and rows that show their recorded trades less the missing ones, the planner has no issue if and only if settling the missing trades one by one succeeds. |
| `RecoveryComplete.ContradictionSpoils` | packages/db/scripts/settlement-recovery-plan.ts:199-243 | A rejected order with recorded trades, an order with more of them than its quantity, or an ended one with some to come always spoils the plan. |
| `JointRecovery.ReachableIsPlannable` | packages/db/scripts/settlement-recovery-plan.ts:729-795 | In every state the whole machine reaches, recovering the missing share trades that owe no fee has a plan without issues. |
| `LadderSizing.Apportion` | apps/bots/src/liquidity.ts:111-122 | The total is split by weight without loss, the left-over shares going one each to the largest fractions, nearer level first. |
| `LadderSizing.FewLeftOver` | apps/bots/src/liquidity.ts:111-113 | Rounding down leaves fewer shares over than there are levels. |
| `LadderSizing.PickDonor` | apps/bots/src/liquidity.ts:127-143 | The donor is the farthest level with more than one share, or the first of the thickest, by profile. |
| `LadderSizing.FillBest` | apps/bots/src/liquidity.ts:124-149 | The best level always reaches its floor, the total stays, and the others gave by the donor rule. |
| `LadderSizing.LiquidityQtyByLevelForProfile` | apps/bots/src/liquidity.ts:106-152 | All of that together; no level is empty with a total of 28 or more, and the loop's early exit is never taken. |
| `LadderSizing.LiquidityQtyByLevelForSymbol` | apps/bots/src/liquidity.ts:160-168 | At every price and profile the ladder holds a total worth the target money, its best level the profile's floor, taken by the profile's donor rule, and every level a share. |
| `LadderSizing.TotalIsWorthTarget` | packages/shared/src/constants.ts:260-265 | Within its limits the ladder's total is worth 120,000,000 to within half a price. |
| `GuardAwareSizing.ExtrasBound` | apps/bots/src/liquidity.ts:341-350 | Shares handed out by weight cost no more than the money for them. |
| `GuardAwareSizing.SpendTheRest` | apps/bots/src/liquidity.ts:356-369 | The loop spends the rest on the best-ranked affordable level again and again, and leaves less than a cheapest share. |
| `GuardAwareSizing.GuardAwareSideQuantities` | apps/bots/src/liquidity.ts:319-371 | Never above the budget unless the floor alone is, then just the floor; otherwise less than one cheapest visible share unspent. |
| `GuardAwareSizing.SharedByWeight` | apps/bots/src/liquidity.ts:341-350 | Once the floor is paid for, no visible level is a share or more short of its weight's part of the rest. |
| `GuardAwareSizing.RestGoesToLostMost` | apps/bots/src/liquidity.ts:351-369 | What rounding left unspent goes first to the level that lost the most by it, as many shares as it buys. |
| `GuardAwareSizing.StopsIffAllPositive` | apps/bots/src/liquidity.ts:364-369 | The loop stops if and only if every visible price is positive. |
| `Liquidity.AlignedIsNearest` | apps/bots/src/liquidity.ts:180-185 | An aligned price is on the grid, at least one tick, the nearest there is with halves going up, and aligning again changes nothing. |
| `Liquidity.MoveGetsNearer` | apps/bots/src/liquidity.ts:192-204 | A move stays aligned, within the step, and gets nearer by the whole step or arrives. |
| `Liquidity.MovesArrive` | apps/bots/src/liquidity.ts:192-204 | One-tick moves arrive in exactly as many moves as the target is ticks away. |
| `Liquidity.BuildBaseLiquidityLadder` | apps/bots/src/liquidity.ts:228-248 | One ask per level and one bid per level at or above a tick, each at its price and quantity, no slot twice. |
| `Liquidity.LadderUncrossed` | apps/bots/src/liquidity.ts:228-248 | No buy of a ladder reaches one of its sells. |
| `Liquidity.LaddersCoexistIff` | apps/bots/src/liquidity.ts:487-493 | Two ladders around centers on the grid coexist if and only if the centers are less than two ticks apart. |
| `Liquidity.OneTickMoveCoexists` | apps/bots/src/liquidity.ts:187-204 | After an ordinary move the old and the new ladder coexist, at any price. |
| `MakerQuotes.ReconciledTracks` | apps/bots/src/market-maker.ts:630-698 | Reconciling drops exactly the orders a complete snapshot no longer shows. |
| `MakerQuotes.ReconciledByReport` | apps/bots/src/market-maker.ts:630-698 | An order stays tracked exactly when the account reports it or the report may be cut short, and a row that stays shows the reported remainder. |
| `MakerQuotes.RemappingTracks` | apps/bots/src/market-maker.ts:259-298 | Re-keying and setting the superseded rows aside leaves what is tracked unchanged. |
| `QuoteRemapping.RemapActiveQuotesForPlan` | apps/bots/src/market-maker.ts:259-298 | Every row is kept under a slot of the plan that wants its price, or superseded, never both; excess is marked; nothing superseded could have filled an empty slot. |
| `MakerQuotes.MarkedIff` | apps/bots/src/market-maker.ts:280-288 | A re-keyed row is marked for replacement exactly when it is larger than planned and was marked already, is so by more than a quarter, or lies on a strict side. |
| `QuoteRemapping.OneTickMoveSupersedesOne` | apps/bots/src/market-maker.ts:253-258 | Re-keying for a one-tick move supersedes at most one row of each side. |
| `MakerRuns.StepKeepsSafe` | apps/bots/src/market-maker.ts:770-810 | Asking, being answered, reconciling, re-keying and retiring all keep ids unique, live orders known, and known prices uncrossed. |
| `MakerRuns.OwnOrdersNeverCross` | apps/bots/src/market-maker.ts:234-241 | Over every run each own live order is tracked or unanswered, and no own buy reaches an own sell. |
| `MakerStartup.GuardedQuoteCenter` | apps/bots/src/market-maker.ts:419-441 | There is a center exactly when no BUY guard lies above a SELL guard on the grid; it is the one between the guards nearest to the aligned request, and a ladder there is clear of all of them. |
| `MakerStartup.BetweenIsUsable` | apps/bots/src/market-maker.ts:437-452 | Any center between the guards is usable, guards off the grid included, so the search beyond it never starts. |
| `MakerStartup.AdoptionIsSafe` | apps/bots/src/market-maker.ts:592-620 | A ladder adopted with its leftovers under the acceptance test is a safe start. |
| `MakerRefresh.RefreshFillsPlan` | apps/bots/src/market-maker.ts:852-876 | If the plan fits beside what is tracked and every placement is accepted, one pass leaves every level sufficient. |
| `MakerRefresh.SufficientIff` | apps/bots/src/market-maker.ts:243-251 | A level is left alone exactly when it stands at its price with nine tenths of its plan at the best level, 45 in a hundred elsewhere, at least a share, and is not marked. |
| `MakerRefresh.RefreshFillsLevels` | apps/bots/src/market-maker.ts:852-876 | After such a pass every level stands at least that deep. |
| `MakerRelocation.BeginsIffFar` | apps/bots/src/market-maker.ts:495-508 | A staged relocation begins exactly when five one-tick moves would not arrive; its first side is the one whose new best rung is clear of the old ladder. |
| `MakerRelocation.FirstSideNeverBlocked` | apps/bots/src/market-maker.ts:915-935 | Over any calls and snapshots, whatever the exchange answers, no quote of the first side is ever blocked. |
| `MakerRelocation.SecondSideOpenIff` | apps/bots/src/market-maker.ts:936-945 | With the first side standing and retired, no quote of the second is blocked if and only if no stale row of the first reaches one. |
| `MakerRelocation.RelocationCompletesIff` | apps/bots/src/market-maker.ts:920-946 | With placements accepted and the old rows reported closed, undisturbed calls reach completion if and only if no stale row is in the way. |
| `MakerRelocation.WholeLadderRelocatesIff` | apps/bots/src/market-maker.ts:495-508 | From a whole ladder that is so exactly unless the move is down, to at most as many ticks as levels, and to less than half. |
| `MakerRelocation.DropStalls` | apps/bots/src/market-maker.ts:920-946 | A drop from 100 to 5 at a tick of one never completes, however often it is tried. |
| `MakerRelocation.GuardedTargetIsOutside` | apps/bots/src/market-maker.ts:419-441 | Inherited rows lie outside the ladder of any center that is clear of them. |
| `MarketMaker.MarketMaker.ReplaceQuote` | apps/bots/src/market-maker.ts:770-810 | Does nothing when sufficient or unsafe; a confirmed placement takes the slot and the old row is retired, not forgotten. |
| `MarketMaker.MarketMaker.RefreshWholeLadder` | apps/bots/src/market-maker.ts:812-876 | Every quote of the plan is visited once, level by level, leading side first. |
| `MarketMaker.LadderOrderLeads` | apps/bots/src/market-maker.ts:812-876 | That order is nearest level first, and at each level asks first when the center moves up, bids first otherwise. |
| `MarketMaker.MarketMaker.RefreshPlanSide` | apps/bots/src/market-maker.ts:884-913 | All requests of a side go out before any answer; whatever order the answers come in, the result is the same and the maker stays safe. |
| `MarketMaker.MarketMaker.ReconcileQuotes` | apps/bots/src/market-maker.ts:630-698 | The four loops fit the maps to the snapshot, dropping only what a complete list no longer shows. |
| `MarketMaker.MarketMaker.RemapForPlan` | apps/bots/src/market-maker.ts:1305-1312 | The ladder is re-keyed and the superseded rows become retirable; nothing tracked is lost. |
| `MarketMaker.MarketMaker.RetireRetirableQuotes` | apps/bots/src/market-maker.ts:953-969 | Rows move over one by one with their quantities; a failed cancellation ends the pass with its row already moved. |
| `MarketMaker.MarketMaker.RetireRetirableQuotesWhenPlanIsSufficient` | apps/bots/src/market-maker.ts:976-986 | Nothing is retired unless every level of the plan is sufficient. |
| `MarketMaker.MarketMaker.AdvanceStagedQuoteMigration` | apps/bots/src/market-maker.ts:920-946 | The second side is asked for exactly when the first stands as planned and has nothing waiting for its end; complete exactly when both stand. |
| `PreservedDepth.BudgetPreservedGuardsFromSnapshot` | apps/bots/src/market-maker.ts:136-186 | The running map gives each preserved row what is visible after the maker's own rows and the earlier preserved ones; no snapshot, no budget. |
| `PreservedDepth.BudgetIsVisible` | apps/bots/src/market-maker.ts:136-186 | At every side and price the budget is the smaller of what the preserved rows hold and what others show. |
| `PreservedDepth.LoneRowIsBudgeted` | apps/bots/src/market-maker.ts:136-186 | A lone preserved row gets what its price shows beyond the maker's own row, up to what it holds. |
| `PreservedDepth.BudgetedFromPreserved` | apps/bots/src/market-maker.ts:169-184 | Each budgeted row is a preserved one with a positive part of its quantity. |
| `PreservedDepth.ClampBudgetedPreservedGuards` | apps/bots/src/market-maker.ts:188-203 | A budgeted row is cut to what its preserved row still holds, and dropped exactly when that ended. |
| `PreservedDepth.ClampRestoresParts` | apps/bots/src/market-maker.ts:188-203 | After any fills and ends the clamped budget is again positive parts of the preserved rows, none larger than before and none lost. |
| `StreamRetention.NothingUnacknowledgedIsDropped` | packages/shared/src/stream-retention.ts:36-66 | With truthful replies, under any interleaving of appends, deliveries, acknowledgements and trims, an unacknowledged entry is never dropped. |
| `StreamRetention.TrimDropsExactly` | packages/shared/src/stream-retention.ts:36-66 | Undisturbed and told the truth, a trim drops exactly what is older than everything pending, or than the last delivered entry when nothing is. |
| `StreamRetention.MalformedReplyDropsIff` | packages/shared/src/stream-retention.ts:50-66 | With an unreadable pending count, a trim drops a pending entry exactly when one lies below the last delivered. |

## Left out

- SQL, Prisma, Redis, sockets, HTTP, timers, heartbeats, logs and candle or market updates: a transaction is one step that commits or fails, a stream delivers at least once in any order.
- Commits whose outcome the client cannot tell, and placement responses lost in transit.
- Retention deletes of claims, trades and markers; the leader lease is an assumption of the engine model.
- The engine model holds one symbol's book, and its trade timestamps (apps/matching-engine/src/engine.ts:49-51) are left out; the reads and the transaction of one handler are one step.
- Reserve accounts replay first at a restart; the model proves its results for every replay order instead.
- Row objects shared between lists are values here, so aliasing within one handler is not modelled.
- Order admission is `PlaceOrder`, with the reservation per unit and the margin to hold as parameters; conditional, OCO and bracket orders are not modelled.
- MatchingEngine.MatchingEngine.PersistPlacedEvent: trade timestamps and the write of the market's last price are not part of the transaction modelled.
- MatchingEngine.MatchingEngine.HandleEvent: the branch for a symbol the engine does not list, and the flush of the outbox after a handler, are left out.
- FuturesSettlementService.Service.Settle: cancelling open futures orders and closing the calls of settled positions are left out.
- JointRuns.WhatIsMatchedSettles: of runs without a rematch, since `EngineOvermatch.OrderTradesTwice` shows one that is not; `JointQuiet.GuardedRunsReach` gives a guard on restarts that excludes them. Instruments do not change during a run.
- Closing a margin call's own row, notifications, `cancelOpenFuturesOrders`, mark prices and the price simulators.
- Owned-row locks of the optimistic mutator: the lock model allows more interleavings than the database does.
- Confluence is stated for spot instruments only: derivative fills in another order realize different amounts per fill.
- Recovery takes trades already sorted by time and id; unknown sides and statuses cannot be written in the model, and message texts, candle buckets and version increments are left out.
- TradeEffects.FutureTradePays: of two different accounts; for an account that trades with itself on one row the two legs are the two fills in turn (`SettlementWorker.LockContext.SettleBothLegs`).
- TradeEffects.SharesMove: of two different accounts; of one that trades with itself only `SpotTradePays` and the exact reservations are stated.
- `Decide` leaves out positions of unlisted contracts or without a mark, which the tick drops before it assesses.
- Floating point: ladder weights, fill ratios and prices are exact integer products and quotients, as in 9/10 and 45/100 of a quantity; a float one unit off at an exact boundary is not modelled.
- GuardAwareSizing.GuardAwareSideQuantities: asks for positive visible prices, because the loop does not stop without them; `StopsIffAllPositive` states exactly that. Visible prices are multiples of the tick, so the source's `Math.max` with the tick is the price itself.
- GuardAwareSizing.SpendTheRest: the budgets themselves (apps/bots/src/liquidity.ts:268-307, 380-452) are parameters.
- MakerRuns.OwnOrdersNeverCross: starts from inherited rows that do not cross, as an adopted ladder's do; which of the inherited rows are adopted at which center (apps/bots/src/market-maker.ts:516-592) is not modelled.
- MakerStartup.GuardedQuoteCenter: the search loop at apps/bots/src/market-maker.ts:446-452 is left out because it never runs; the bound of the largest safe integer is not modelled.
- MarketMaker.MarketMaker.ReconcileQuotes: the clamp of the budget is `PreservedDepth.ClampBudgetedPreservedGuards`, a method of its own, since the budget is not a field of the class.
- MakerRelocation.RelocationCompletesIff: the plan's quantities stay fixed during the move; the source rebuilds the plan from the budget on every call.
- MarketMaker.MarketMaker.ReplaceQuote: a placement that fails in transport leaves the maker as it was, and the exception itself is not modelled; whether a cancellation request fails only decides when it is sent again; in the model a row leaves the maps by reconciliation alone.
- The watchdog, the retry clock and the pacing of the maker's loop.
