# PM-NAUTILUS verification

PM-NAUTILUS trades prediction-market outcomes with integer money: prices, shares and cash
are whole micro-units (`SCALE` = 1 000 000). This project models the parts of it that
decide about money and that must survive crashes, and proves what they promise. Run
`dafny verify dfyconfig.toml` in this directory.

## What is modelled

* **Order arithmetic.** `Arith`, `AmGm`, `FeeRules` (Fees.dfy), `SplitFees`, `OrderTerms`,
  `Ladder`, `SellBatching` (SellBatches.dfy) and `SellGroups`: the fee curve and its worst ratio over a price
  grid, the fee-safe notional and what splitting an order does to it, tick and step rounding with its own checker, the ladder walk with its
  binary search, and the grouping of sells over shared depth. The worst-ratio result rests on
  a weighted mean inequality that `AmGm` proves over the reals.
* **Shadow books.** `Books`: public depth is replaced and edited while simulated consumption
  stays, over histories with crashes and restarts.
* **Stored ledger.** `BusinessStore`: rows, comparison cache and inverse index of the business
  ledger, with a failure possible at every statement and at the commit.
* **Fill ledger.** `Ledger` is the effect of one journaled event on cycles, targets, claims and
  profit. `LedgerRuns`, `LedgerSteps` and `LedgerTheorems` run it: submissions, journaled
  fills, projections, stop observations, market settlements, preference changes and orders
  finished by the venue's answer alone, in any order. `TestRuns` adds the rules of simulated trading, and `TestExecution` (Execution.dfy) is
  the simulated venue, proved to keep to them. `LedgerAccounts` tells every figure of a cycle,
  target, order and claim from the journaled fills alone, and `RoundTrip` shows that whole
  trades are runs. `StopLossRules` (StopLoss.dfy) is the stop
  observer.
* **Projection at run time.** `RuntimeProjection` (Runtime.dfy) is the same projection as the
  program performs it, on mutable maps inside a transaction, with a store that may fail at any
  call, the undo that follows, duplicate delivery, crash and replay; likewise submissions, stop
  observations, settlements and closings with their own failing saves. `RuntimeRefinement`
  shows that whatever happens to the program, its committed rows are a run of the fill ledger.
* **History.** `History` is the bounded, evicting trade history and the paged one;
  `HistoryAgreement` ties it to the strategy's own accounting.
* **Live protocols.** `LiveTrades` (trade reports and the release of an order),
  `PostBoundary` (an order let go without an answer was never sent), `LedgerGate` (full checks against submissions under cancellation) and `NonceOwnership`
  (one signing account shared by redemptions and approvals).
* **Subscriptions.** `Subscriptions`: the packing of tokens into socket groups.

Objects that change in place are classes here too; each method is tied to a function of the
old state, and the theorems are about runs of that function. The classes are `Books.Side`,
`Books.Book`, `BusinessStore.Store`, `StopLossRules.StopLoss`, `RuntimeProjection.Runtime`,
`TestRuns.CashCache`, `History.RecordProjection`, `LiveTrades.LiveOrder`,
`PostBoundary.Submission`, `LedgerGate.Counters`, `NonceOwnership.Ledger` and `Subscriptions.Hub`.

## What the models take from outside

* A store call either succeeds or raises; a transaction commits whole or leaves nothing.
* In `LedgerRuns` the venue fills only orders that are not finished, on the order's side, with
  a positive quantity and within the quantity offered for sale. Decisions are made when no
  fill of a finished order of that Event still waits to be projected, which is what the
  synchronous delivery gives. An outcome names its condition and its Event.
* In `TestRuns` an order runs to its end inside its submission and its fills stay within its
  cash. That is no assumption about the simulated venue: `TestExecution.SubmissionIsARun`
  proves it of the events the venue emits. Trade identities of one order are distinct.
* In `LiveTrades` a final status of a trade never changes, and an answer that closes an order
  lists all of the order's trades. Nothing is assumed about order, repetition or staleness.
* In `PostBoundary` a request can reach the venue only through an attempt after the boundary,
  and only an order with a stored identity is answered for.
* In `RuntimeRefinement` a happening that the program's checks or the venue's terms exclude
  does nothing.
* In `NonceOwnership` a signed transaction is an opaque value with a nonce.

## Results that are not what one might expect

* The budget bound for a split order holds for cash counted exactly. Counted as the program
  counts it, each execution truncated down, it can fail: `SplitFees.TruncatedCashIsNotEnough`
  is a one-dollar order that the signing checks accept. `SplitFees.SplitsFitExactly` and
  `SplitFees.AllSplitsFitExactly` say exactly when it holds, for a bounded and for any number of
  executions; `SplitFees.SplitWithinSlack` bounds the excess and `SplitFees.SlackIsUsed` shows
  that the bound is nearly reached.
* A restart forgets how far a submission came. `PostBoundary.RestartDecides`: it lets go exactly
  the orders without a stored identity, so one that was never sent may wait for an answer.
* A stale match reported after a failure holds an order back.
  `LiveTrades.ReleasedExactlyOnFinalWords` gives the exact condition for a release and
  `LiveTrades.StaleMatchHoldsBack` an instance.
* Saving one Event reads back as the whole ledger if and only if nothing else had changed:
  `BusinessStore.SavedEventReadsBack` proves both directions.

## Model

| member | source | states |
|---|---|---|
| AmGm.WeightedMeans | src/pm_nautilus/rules.py:65-90 | the weighted mean inequality on integers that makes the fee factor rise and then fall |
| FeeRules.ShapeRises | src/pm_nautilus/rules.py:71-85 | up to its peak the fee-to-cash factor never falls as the price grows, for every exponent |
| FeeRules.ShapeFalls | src/pm_nautilus/rules.py:71-85 | from its peak on the factor never rises |
| FeeRules.WorstRatioIsMaximum | src/pm_nautilus/rules.py:65-90 | the reference scan bounds the fee ratio at every executable tick and is reached at one of them |
| FeeRules.MaximumIsUnique | src/pm_nautilus/rules.py:65-90 | two answers that are both bound and attained have one value |
| FeeRules.CandidatesDominate | src/pm_nautilus/rules.py:71-90 | every executable tick, whatever the exponent, has a ratio no larger than that of one of the few candidates tried |
| FeeRules.WorstBuyFeeRatio | src/pm_nautilus/rules.py:65-90 | the candidate loop returns the exact maximum over all executable ticks, and fails exactly when the reference does |
| FeeRules.NotionalIsLargest | src/pm_nautilus/rules.py:93-106 | a whole-cent amount with its worst fee fits the budget if and only if it is at most the signed notional |
| FeeRules.NotionalByValue | src/pm_nautilus/rules.py:93-106 | a larger ratio never gives a larger notional, however the fractions are written |
| FeeRules.LowerLimitLargerNotional | src/pm_nautilus/rules.py:93-106 | lowering the limit never lowers the notional |
| FeeRules.SignedNotionalIs | src/pm_nautilus/rules.py:93-106 | the signed notional is the largest whole-cent amount that fits the budget with the largest fee ratio of any executable tick, and nothing for no budget |
| FeeRules.SignedBuyNotional | src/pm_nautilus/rules.py:93-106 | the notional computed through the candidate loop is the one defined by the exact maximum |
| FeeRules.FeeIs | src/pm_nautilus/rules.py:54-61 | a fee is the exact product of quantity, rate and curve cut down to ten micro-units, and nothing outside the price range or without shares |
| FeeRules.FeeWithinCost | src/pm_nautilus/rules.py:54-61 | with an exponent of one or more a fee never exceeds the truncated cash it is charged on |
| FeeRules.FeeAtMostRatio | src/pm_nautilus/rules.py:54-61 | a truncated fee is nonnegative and at most the exact cash times the ratio at its price |
| FeeRules.EverySplitFitsBudget | src/pm_nautilus/rules.py:93-106 | however an order of the notional, counted exactly, is split over executable ticks, notional plus all fees stays within the budget |
| SplitFees.SplitBearsAtMost | src/pm_nautilus/rules.py:25-61 | no split into so many executions of so much truncated cost bears more fees than the worst distribution of that cost over them |
| SplitFees.SplitBears | src/pm_nautilus/rules.py:25-61 | some split bears exactly those fees |
| SplitFees.SplitsFitExactly | src/pm_nautilus/rules.py:93-106 | every split into at most k executions, truncated as the program does, fits the budget if and only if the notional with the worst distribution over k does |
| SplitFees.AllSplitsFitExactly | src/pm_nautilus/rules.py:93-106 | every split whatsoever fits if and only if an execution that costs nothing bears no fee and the worst distribution over executions that cost something fits |
| SplitFees.SplitWithinSlack | src/pm_nautilus/rules.py:93-106 | a split into k executions exceeds the budget by no more than the worst ratio of what k truncations can hide, rounded up |
| SplitFees.SlackIsUsed | src/pm_nautilus/rules.py:25-61 | at the tick of the worst ratio a split into k executions pays fees on all but a price of one more unit each, less than ten units of fee truncation apart |
| SplitFees.TruncatedCashIsNotEnough | src/pm_nautilus/rules.py:93-106 | an order of the whole notional of its budget that the signed check accepts can be split within its notional so that it exceeds its budget |
| OrderTerms.SellMinimumIs | src/pm_nautilus/order_terms.py:28-29 | the minimum of a sell is the least whole number of steps that reaches the market's minimum |
| OrderTerms.NormalizeSellAccepts | src/pm_nautilus/order_terms.py:32-42 | a sell has legal terms exactly when its tick is supported, its quantity reaches one step and the minimum, and its floor is within the highest tick |
| OrderTerms.NormalizedSellBounds | src/pm_nautilus/order_terms.py:32-42 | a normalised sell loses less than a share step, never lowers its floor and raises it by less than a tick |
| OrderTerms.NormalizeSellIdempotent | src/pm_nautilus/order_terms.py:32-42 | normalising normalised terms changes nothing |
| OrderTerms.SellAmountsPassCheck | src/pm_nautilus/order_terms.py:60-66 | whole steps of shares asked at a multiple of the tick cost whole micro-units, and the signed check accepts them exactly from the floor up to the highest tick, and no other quantity |
| OrderTerms.BuyTakerBounds | src/pm_nautilus/order_terms.py:69-74 | the shares asked are the whole precision steps within the exact quotient |
| OrderTerms.SignedBuyPrice | src/pm_nautilus/order_terms.py:97-111 | an accepted buy is funded in whole cents within its notional, reaches the minimum size and pays less than the next tick; at its limit or better nothing else is asked |
| OrderTerms.ExactBuyPassesCheck | src/pm_nautilus/order_terms.py:69-111 | amounts built for a cent or more put the next tick strictly out of reach, so within the notional the signed check rejects exactly below the minimum size |
| OrderTerms.ExactBuyExists | src/pm_nautilus/order_terms.py:77-94 | exact BUY amounts exist for exactly a positive amount, a legal tick below one dollar and the share precision of that tick |
| OrderTerms.BuiltAmountsPassCheck | src/pm_nautilus/order_terms.py:77-111 | the exact BUY amounts of every supported precision pass the signed check up to the minimum size |
| Ladder.SearchGreatest | src/pm_nautilus/rules.py:211-221 | the halving search finds the greatest affordable quantity wherever one exists, as a downward scan would |
| Ladder.TargetIsLeast | src/pm_nautilus/rules.py:33-37 | the target is the least multiple of the tick at or above both markups, up to the cap |
| Ladder.PlanBuy | src/pm_nautilus/rules.py:193-232 | nothing is bought where no level may be taken or the quote buys less than the minimum at the cheapest one; otherwise each fill is the greatest its level, quote and cash admit, prices never fall, and every level passed by could sell nothing at that point; it fails only over an off-tick level |
| Ladder.PlanTells | src/pm_nautilus/rules.py:193-232 | the reference plan is all of that |
| Ladder.WalkLevels | src/pm_nautilus/rules.py:209-232 | the mutable walk over budget and quote gives the reference walk |
| Ladder.WalkWithinBudgets | src/pm_nautilus/rules.py:193-232 | a plan spends at most its all-in budget and its quote budget, and only on positive fills |
| Ladder.EveryFillIsGreatest | src/pm_nautilus/rules.py:209-232 | each fill is the greatest quantity its level, the remaining quote and the remaining cash admit |
| Ladder.WalkAscends | src/pm_nautilus/rules.py:205-232 | fill prices ascend strictly |
| Ladder.LeftoverBuysNothing | src/pm_nautilus/rules.py:209-232 | a level passed by, cheaper than a fill or with cash left over at the end, could sell nothing for what was left at that point |
| Ladder.PlanKeepsBudget | src/pm_nautilus/rules.py:193-232 | with the fee-safe quote, a plan stays within the budget, the notional, the limit and each level's depth |
| Ladder.PlanFitsFillByFill | src/pm_nautilus/execution.py:84-93 | executed one fill after the other, a plan is within its cash at every fill |
| Ladder.ByPriceIs | src/pm_nautilus/books.py:14-21 | the last quantity listed for a price is the one that holds, and no price is held that is not listed |
| SellBatching.TakeDepth | src/pm_nautilus/rules.py:282-297 | each sale brings its cost less its fee, or nothing where the fee is larger; the best bids go first, and depth stays at a takeable price only when the whole quantity is sold and nothing of it at a worse one |
| SellBatching.TakesBest | src/pm_nautilus/rules.py:282-297 | the reference fills take the best bids and leave nothing takeable while quantity remains |
| SellBatching.SellBatches | src/pm_nautilus/rules.py:251-303 | the grouping loop gives the reference batches, and every fill of every batch brings its cost less its fee |
| SellGroups.BatchesAreGroups | src/pm_nautilus/rules.py:251-303 | the positive targets in order of price, age and identity fall into groups that have just reached the minimum and a remainder that has not; each group is offered for all it holds at its highest price, brought onto the grid, and takes the best of the bids the batches before it left, or is skipped |
| SellGroups.BatchesBring | src/pm_nautilus/rules.py:292-293 | over all batches together, with a fee exponent of one or more, what is credited and what is charged are exactly what the shares cost |
| SellBatching.TakeConserves | src/pm_nautilus/rules.py:282-297 | at every price what is sold plus what is left is what was there, within the limit and the quantity asked |
| SellBatching.BatchesShareDepth | src/pm_nautilus/rules.py:251-303 | over all batches together no bid is sold into beyond its size |
| SellBatching.FirstOnlyIsFirst | src/pm_nautilus/rules.py:300-301 | asking for the first batch gives the first of all batches |
| SellBatching.DecisionIsExecuted | src/pm_nautilus/execution.py:94-102 | executing the decided batch normalises to itself and produces exactly the fills the decision computed |
| Books.Side.SetLevel | src/pm_nautilus/books.py:27-42 | one price's new size cuts consumption down to it and keeps no empty entries |
| Books.Side.Update | src/pm_nautilus/books.py:14-42 | the last level listed for a price gives its public size, zero removes it, and consumption is cut to it; a snapshot drops every other public price, a delta leaves all others; a bad level changes nothing |
| Books.Side.Consume | src/pm_nautilus/books.py:59-62 | consumption is accepted exactly within the free depth |
| Books.Book.Snapshot | src/pm_nautilus/books.py:73-85 | both sides become what their lists say or neither changes, and time runs back only while not ready |
| Books.Book.Delta | src/pm_nautilus/books.py:87-93 | only a ready book takes an edit, on one side, level by level, and never an older one |
| Books.CrashedOrderCompletes | src/pm_nautilus/strategy.py:357-375 | after a crash part way through an order the remaining fills are accepted on the reloaded row and end in the same depth |
| Books.HistoryKeeps | src/pm_nautilus/books.py:23-62 | over every history consumption stays within public depth, and taken plus free depth never exceeds observed additions |
| Books.TakenNeverExceedsAdded | src/pm_nautilus/books.py:23-62 | at each price the total ever taken is at most the total ever observed as additions |
| Books.RestartIsInvisible | src/pm_nautilus/store.py:83-104 | reloading the row and accepting a snapshot leaves the depth and consumption of accepting it without a restart |
| BusinessStore.IndexAnswers | src/pm_nautilus/store.py:273-292 | an exact inverse index answers precisely an Event's stored targets |
| BusinessStore.Store.LoadRows | src/pm_nautilus/store.py:273-292 | loading makes cache and index exact for the rows |
| BusinessStore.Store.SyncRows | src/pm_nautilus/store.py:294-325 | it writes exactly the rows that differ, one statement each, and leaves the rows, cache and index of writing all of them |
| BusinessStore.Store.WriteRow | src/pm_nautilus/store.py:300-325 | one row write keeps the cache and the index exact |
| BusinessStore.Store.SaveEvent | src/pm_nautilus/store.py:327-353 | an Event's save commits its rows or leaves no trace, whether a statement or the commit fails, reads back whole if only that Event changed, and succeeds when the database answers every statement |
| BusinessStore.Store.SaveAll | src/pm_nautilus/store.py:257-266 | a full save reads back as the ledger or, failing at a statement or at the commit, leaves no trace, and succeeds when the database answers every statement |
| BusinessStore.Store.Rollback | src/pm_nautilus/store.py:181-195 | a rollback restores the rows and drops the cache that may hold uncommitted ones |
| BusinessStore.SavedEventReadsBack | src/pm_nautilus/store.py:327-353 | saving one Event reads back as the whole ledger if and only if nothing else differed |
| BusinessStore.SavesReadBack | src/pm_nautilus/store.py:345-353 | after any run of committed and rolled back Event saves the rows read back as the last committed ledger |
| StopLossRules.StopLoss.Add | src/pm_nautilus/rules.py:413-418 | a further buy raises the average and restarts the watch unless the stop is exiting, and keeps the observer regular |
| StopLossRules.StopLoss.Observe | src/pm_nautilus/rules.py:420-438 | a look, stale and repeated ones included, takes the observer's step and keeps it regular |
| StopLossRules.ExitIsConfirmed | src/pm_nautilus/rules.py:413-438 | a stop exits only on a low look at a version not seen last, thirty seconds after another low look of the same watch, with no recovery or buy between |
| StopLossRules.RepeatedLookIsNothing | src/pm_nautilus/rules.py:431-432 | a low look at the version seen last changes nothing |
| StopLossRules.ConfirmedExits | src/pm_nautilus/rules.py:413-438 | the converse: a low look thirty seconds after another one, at another version than the last and with no recovery or buy between, always exits |
| StopLossRules.ThresholdIs | src/pm_nautilus/rules.py:409-411 | the threshold is the whole average price times the multiplier, cut down to a micro-unit and never below one |
| StopLossRules.ThresholdBounds | src/pm_nautilus/rules.py:409-411 | it lies within one unit and one share's rounding below the exact average price times the multiplier |
| StopLossRules.AverageOfBuys | src/pm_nautilus/rules.py:413-415 | the average is over every buy, whatever was seen in between |
| StopLossRules.ExitIsForGood | src/pm_nautilus/rules.py:413-438 | nothing seen or bought later takes an exit back |
| Ledger.SaleTakesItsShare | src/pm_nautilus/strategy.py:589-604 | the sold shares leave their cycle with their share of its cost, rounded down, the last ones with all of it, and what they brought beyond that is profit |
| LedgerSteps.TakenCovers | src/pm_nautilus/strategy.py:605-617 | a sale out of listed targets lowers the Event's target sum by exactly what was sold |
| LedgerSteps.TakenOnly | src/pm_nautilus/strategy.py:605-617 | taking shrinks only the Event's own listed targets and keeps no emptied one |
| LedgerSteps.SubmitKeeps | src/pm_nautilus/strategy.py:838-888 | a submission allowed by the decision rules keeps the ledger's invariant |
| LedgerSteps.RecordKeeps | src/pm_nautilus/strategy.py:424-437 | journaling a venue fact keeps the invariant |
| LedgerSteps.ObserveKeeps | src/pm_nautilus/strategy.py:655-675 | a stop observation, and the clearing of targets of an exiting cycle, keeps it |
| LedgerSteps.IdentifyKeeps | src/pm_nautilus/redemption.py:906-947 | turning a settled position into a claim keeps it |
| LedgerSteps.MidwayKeeps | src/pm_nautilus/strategy.py:527-621 | applying a buy, a sale, a settlement or an order event keeps it |
| LedgerSteps.ReleaseKeeps | src/pm_nautilus/strategy.py:624-636 | releasing a finished cycle keeps it and leaves no empty cycle without an open order |
| LedgerTheorems.StepKeeps | src/pm_nautilus/strategy.py:424-636 | every step of every kind keeps the invariant |
| LedgerTheorems.RetireKeeps | src/pm_nautilus/live.py:1414-1420 | finishing an order on the venue's answer alone, and releasing its cycle with it, keeps the invariant |
| LedgerTheorems.TargetsCover | src/pm_nautilus/strategy.py:1020-1028 | in every reachable state the targets of a cycle that is neither settled nor exiting add up to exactly its quantity |
| LedgerTheorems.MoneyIsConserved | src/pm_nautilus/strategy.py:207-219 | in every reachable state cash up to the cursor plus remaining cost is initial capital plus realized profit |
| LedgerTheorems.SalesBookTheirShare | src/pm_nautilus/strategy.py:589-604 | in every reachable state the next sale takes its share of the cost out of its cycle and books exactly the rest of its proceeds, released cycle or not |
| LedgerTheorems.EveryEventProjects | src/pm_nautilus/strategy.py:527-617 | in every reachable state the next journaled event projects, without conflict, overselling or a missing claim, and the cursor moves over it alone |
| LedgerTheorems.LiveOrdersDoNotCompete | src/pm_nautilus/strategy.py:677-726 | two live orders of one Event are a buy and a sell, and nothing runs beside a settlement |
| LedgerTheorems.LiveSaleIsHeld | src/pm_nautilus/strategy.py:590-593 | a live sale's position exists and holds at least what the order has left |
| LedgerTheorems.FinishedCyclesAreReleased | src/pm_nautilus/strategy.py:624-636 | an empty cycle remains only for an order that is still open |
| LedgerAccounts.CyclesAreTold | src/pm_nautilus/strategy.py:544-604 | in every reachable state a cycle's budget and stop are those its opening buy froze, its spent cash, holding, average and sold mark add up the fills since, and spending beyond the budget is flagged |
| LedgerAccounts.TargetsAreTold | src/pm_nautilus/strategy.py:580-588 | in every reachable state a target stands at the price its own buy froze and holds no more than that buy |
| LedgerAccounts.SpendingIsTold | src/pm_nautilus/strategy.py:569-569 | an order has spent exactly the amounts of its projected buys |
| LedgerAccounts.ClaimsAreTold | src/pm_nautilus/redemption.py:906-947 | a claim still owed carries the holding and cost of its cycle and leaves its Event no targets; a credited one was credited by a settlement fill of its own |
| LedgerAccounts.ExitClears | src/pm_nautilus/strategy.py:655-672 | a look that finds the stop exiting bans the Event and leaves none of its targets; any other look touches neither |
| LedgerAccounts.NoEntryAfterExit | src/pm_nautilus/strategy.py:663-672 | once a stop exits no run ever enters its Event again |
| RoundTrip.BuyAndSell | src/pm_nautilus/strategy.py:527-636 | buying some shares within the budget and selling them all at their target is a run, and leaves nothing but the difference as profit |
| RoundTrip.BuyAndSettle | src/pm_nautilus/redemption.py:906-947 | held until the market resolves, the shares become a claim that its settlement credits, again leaving the payout less the cost |
| TestRuns.CashCache.TestCash | src/pm_nautilus/strategy.py:207-219 | the incremental cash is the fold over the whole journal, also after the capital changed |
| TestRuns.StepAffords | src/pm_nautilus/execution.py:69-130 | every step of simulated trading keeps cash and budgets covered |
| TestRuns.TestCashAndBudgetsHold | src/pm_nautilus/strategy.py:544-576 | in every reachable simulated state cash is nonnegative and no cycle has spent more than the budget frozen at its first buy, even when preferences change |
| TestExecution.EmitEvents | src/pm_nautilus/execution.py:84-148 | the venue enters each planned fill under its own trade with its own figures, in order, and cancels exactly when the fills leave something of the order |
| TestExecution.VenueFillsAre | src/pm_nautilus/execution.py:72-102 | a settlement pays what its shares are worth, an unready book fills nothing, a buy gets what a plan buys, and another sale the best of the bids on its legal terms |
| TestExecution.FillsAreProper | src/pm_nautilus/execution.py:74-102 | planned fills are positive, never negative in cash, a buy within its cash at every fill and a sale within its quantity |
| TestExecution.OneFill | src/pm_nautilus/execution.py:42-47 | the next fill is new and allowed when it is journaled, and it projects before the one after it |
| TestExecution.SubmissionIsARun | src/pm_nautilus/execution.py:59-148 | a submission the decision rules allow is carried out by the venue as an allowed run, journals exactly the emitted events and ends with everything projected and no order open |
| RuntimeProjection.EventSavedIsWhole | src/pm_nautilus/strategy.py:520-523 | saving one Event saves everything when only what its projection may touch was touched |
| RuntimeProjection.UndoRestores | src/pm_nautilus/strategy.py:483-502 | putting back one Event's rows, one claim and the scalars undoes everything a projection may touch |
| RuntimeProjection.Runtime.ApplyBuy | src/pm_nautilus/strategy.py:544-588 | a buy applied statement by statement is the ledger's buy, and if the store fails half way only this Event was touched |
| RuntimeProjection.Runtime.ApplySell | src/pm_nautilus/strategy.py:589-617 | a sale applied statement by statement takes its share of the cost out of the cycle and books the rest as profit, is the ledger's sale, and fails exactly when the ledger's does |
| RuntimeProjection.Runtime.TakeFrom | src/pm_nautilus/strategy.py:605-617 | the loop over listed targets takes what the reference takes and leaves other Events alone |
| RuntimeProjection.Runtime.ConsumeDepth | src/pm_nautilus/strategy.py:618-621 | a simulated buy takes its fill out of the asks and a sale out of the bids, at its price alone and only within free depth, together with the book's row |
| RuntimeProjection.Runtime.ReleaseCycle | src/pm_nautilus/strategy.py:624-636 | release in place is the ledger's release and touches only its Event |
| RuntimeProjection.Runtime.ProjectTransaction | src/pm_nautilus/strategy.py:504-525 | the transaction commits the whole projection or changes no row, and it commits whenever the store answers and the event applies |
| RuntimeProjection.Runtime.Project | src/pm_nautilus/strategy.py:455-502 | a failure anywhere restores memory and book exactly, leaves the rows and stops projecting; success projects exactly the next event and takes depth for simulated fills alone |
| RuntimeProjection.Runtime.Journal | src/pm_nautilus/store.py:364-384 | a fill of the same order and trade, or another event of the same identity, is stored once and keeps its place; anything else is appended when the store answers |
| RuntimeProjection.Runtime.ProjectUntil | src/pm_nautilus/strategy.py:432-437 | pending events are projected in order, one by one, up to the first failure |
| RuntimeProjection.Runtime.OnNative | src/pm_nautilus/strategy.py:424-437 | a delivery projects all that is pending up to it and nothing twice; a duplicate, a stranger's event or a stopped runtime changes no projection |
| RuntimeProjection.Runtime.Restart | src/pm_nautilus/strategy.py:391-394 | a crash at any point, inside a transaction too, resumes from the committed rows |
| RuntimeProjection.Runtime.Recover | src/pm_nautilus/strategy.py:391-394 | recovery ends with the projected events being the whole journal, or stops at a failed store call |
| RuntimeProjection.Runtime.Submit | src/pm_nautilus/strategy.py:885-886 | an order is stored before its first event, and a failing store leaves neither or only the order |
| RuntimeProjection.Runtime.Look | src/pm_nautilus/strategy.py:655-675 | a look at the price moves memory as the ledger's observation does, and the save of the one Event makes the rows the whole of it or leaves them |
| RuntimeProjection.Runtime.Identify | src/pm_nautilus/redemption.py:906-947 | a resolved holding without open orders becomes a claim in memory and rows, or a failing save takes everything back |
| RuntimeProjection.Runtime.Retire | src/pm_nautilus/live.py:1414-1420 | the mark and the release commit together or leave the rows |
| RuntimeProjection.FindAppended | src/pm_nautilus/store.py:364-384 | a stored event is found where it was appended |
| RuntimeRefinement.ReplayIsARun | src/pm_nautilus/strategy.py:391-394 | from a reachable state a replay over any stretch of the journal succeeds and is a run of the fill ledger |
| RuntimeRefinement.RunsGrow | src/pm_nautilus/strategy.py:424-437 | no run takes back what was journaled or projected |
| RuntimeRefinement.Happen | src/pm_nautilus/strategy.py:391-437 | each happening takes exactly the ledger's steps it stands for whenever the checks admit it and the store answers, and otherwise none, apart from projecting what is pending |
| RuntimeRefinement.Happens | src/pm_nautilus/strategy.py:391-437 | over every run of submissions, deliveries, looks, settlements, closings, preference changes, store failures at any call, deaths and recoveries the committed rows are a run of the ledger, each event is stored once, and the projected events are always the start of the journal |
| RuntimeRefinement.Lives | src/pm_nautilus/strategy.py:391-437 | a program started on empty rows only ever commits what the ledger can reach |
| History.ReplayLists | src/pm_nautilus/views.py:419-494 | the replay lists each filled own order once |
| History.RowsAddUp | src/pm_nautilus/views.py:454-494 | a row adds up exactly the quantity, cash and weighted price of its order's fills and stands at its first one |
| History.RowShows | src/pm_nautilus/views.py:454-494 | a row shows the profit so far beside a sale and none beside a buy, and the label of its latest sale or first fill |
| History.RecordProjection.Move | src/pm_nautilus/views.py:419-446 | a buy adds its shares and cost, a sale takes its shares with their share of the basis and earns the rest, no other token moves, and the label says what happened to the position |
| History.RecordProjection.Apply | src/pm_nautilus/views.py:419-494 | a row grows in place, a new order pushes out the oldest, a retired one moves only the position |
| History.RecordProjection.ApplyPayload | src/pm_nautilus/views.py:376-398 | after each journal row the window is the last orders of the unbounded replay; an evicted order never comes back as new |
| History.RecordProjection.Update | src/pm_nautilus/views.py:362-374 | fed from any cursor to any head, the window is that of the unbounded replay |
| History.RecordProjection.UpdateInBatches | src/pm_nautilus/views.py:400-417 | fed in batches of any size it is the same window |
| History.RecordProjection.ApplySelected | src/pm_nautilus/views.py:565-576 | a page keeps exactly the chosen orders' rows of the unbounded replay |
| History.RecordProjection.View | src/pm_nautilus/views.py:496-500 | the newest rows come first, as many as asked and kept |
| HistoryAgreement.FillMovesAlike | src/pm_nautilus/views.py:419-446 | a fill moves the history's position and the strategy's cycle by the same quantity, cost and profit |
| HistoryAgreement.HistoryTellsTheLedger | src/pm_nautilus/views.py:419-494 | in every reachable state the history holds each cycle's quantity at its cost, and its rows' profits add up to the realized profit |
| LiveTrades.LiveOrder.Ingest | src/pm_nautilus/live.py:507-624 | a report updates pending and failed trades and journals a confirmed fill at most once, with failures of the store in between |
| LiveTrades.LiveOrder.RetryDelivery | src/pm_nautilus/live.py:458-464 | a fill that was not delivered is handed over again without being journaled again, and the order stays sound |
| LiveTrades.LiveOrder.FinishDelivery | src/pm_nautilus/live.py:424-456 | a delivered fill leaves the undelivered ones, a failed delivery keeps it, and the order stays sound |
| LiveTrades.LiveOrder.OnVenueCancel | src/pm_nautilus/live.py:399-409 | a cancellation alone releases nothing and keeps the order sound |
| LiveTrades.LiveOrder.ApplyAnswer | src/pm_nautilus/live.py:1356-1420 | an answer releases the order only with nothing pending, all listed trades final and quantities within the bound |
| LiveTrades.TradesJournaledAtMostOnce | src/pm_nautilus/live.py:507-624 | over every schedule each venue trade is journaled and delivered at most once, and only a confirmed one with its true quantity |
| LiveTrades.ReleasedIsExact | src/pm_nautilus/live.py:1356-1420 | a released order's journaled fills are exactly the venue's confirmed trades |
| LiveTrades.ReleaseIsFinal | src/pm_nautilus/live.py:1356-1420 | after a release no report changes the journal |
| LiveTrades.FillsAreNotLost | src/pm_nautilus/live.py:424-464 | over every schedule with failures and crashes each journaled fill was delivered or waits for a retry; the rebuild after a crash delivers them all |
| LiveTrades.RetryDelivers | src/pm_nautilus/live.py:458-464 | a fill that waits is delivered, once, by the next retry that succeeds |
| LiveTrades.FinalTotal | src/pm_nautilus/live.py:1366-1391 | once all trades are final, filled plus failed quantity is the venue's total |
| LiveTrades.ReleasedExactlyWhenAllFinal | src/pm_nautilus/live.py:1366-1420 | an answer releases an open order exactly when it closes it, the release is saved, every trade is finally reported and none pending, and the venue's total covers what was matched within the order |
| LiveTrades.PendingIsTheLastWord | src/pm_nautilus/live.py:545-563 | without lost writes a trade is pending exactly when its last counting report is not final |
| LiveTrades.ReleasedExactlyOnFinalWords | src/pm_nautilus/live.py:545-563 | a closing answer releases exactly when the last counting report of every trade is final |
| LiveTrades.StaleMatchHoldsBack | src/pm_nautilus/live.py:545-563 | a match reported after a failure makes the release wait |
| PostBoundary.Submission.PersistIdentity | src/pm_nautilus/live.py:1095-1117 | the identity is stored before anything can be sent |
| PostBoundary.Submission.EnterPost | src/pm_nautilus/live.py:304-315 | the boundary is crossed only by an order that is still open, and noted before anything runs |
| PostBoundary.Submission.FinishFailed | src/pm_nautilus/live.py:677-735 | a failed or cancelled submission lets its order go exactly when no request was possible |
| PostBoundary.Submission.SyncOwned | src/pm_nautilus/live.py:1305-1317 | reconciliation lets go only an order of an earlier process without an identity |
| PostBoundary.StepSound | src/pm_nautilus/live.py:304-327 | every step, of a worker that outlives its task too, keeps that what was let go without evidence never crossed the boundary |
| PostBoundary.ReleasedMeansUnsent | src/pm_nautilus/live.py:304-327 | over every run with failures, cancellations and restarts, an order let go without an answer of the venue has sent no request and never sends one |
| PostBoundary.FailureReleasesExactly | src/pm_nautilus/live.py:677-735 | in every reachable state a failing submission of an open order lets it go if and only if the boundary was not crossed |
| PostBoundary.RestartDecides | src/pm_nautilus/live.py:1305-1317 | after a restart reconciliation lets go exactly the open orders without a stored identity |
| LedgerGate.Counters.EnterCheck | src/pm_nautilus/live.py:241-247 | an entering check is counted and holds the gate exactly when nobody else does |
| LedgerGate.Counters.WakeCheck | src/pm_nautilus/live.py:246-247 | a woken check looks again, and the counters stay those of the tasks |
| LedgerGate.Counters.LeaveCheck | src/pm_nautilus/live.py:248-250 | a check cancelled while waiting takes its count back and wakes the others, and the counters stay those of the tasks |
| LedgerGate.Counters.EnterPost | src/pm_nautilus/live.py:256-260 | a post is admitted exactly when no check holds or waits |
| LedgerGate.Counters.Release | src/pm_nautilus/live.py:266-286 | a release gives up one hold and wakes everyone |
| LedgerGate.StepExact | src/pm_nautilus/live.py:232-286 | every step keeps the counters equal to the tasks in each phase and leaves nobody asleep at an open gate |
| LedgerGate.ChecksExclude | src/pm_nautilus/live.py:232-286 | over every run a check overlaps no other check and no post |
| LedgerGate.NoPostOvertakes | src/pm_nautilus/live.py:256-260 | while a check waits no post is admitted |
| LedgerGate.NeverStuck | src/pm_nautilus/live.py:232-286 | whenever a task is at the gate some task can move nearer to leaving |
| LedgerGate.AlwaysDrains | src/pm_nautilus/live.py:232-286 | from every reachable state all tasks can finish and the gate is open again |
| LedgerGate.EveryExitReleases | src/pm_nautilus/live.py:266-286 | a gate that everyone has left is open, whatever was cancelled |
| NonceOwnership.Ledger.TryBeginPrepare | src/pm_nautilus/redemption.py:988-999 | signing may begin exactly when nobody else owns the account |
| NonceOwnership.Ledger.Adopt | src/pm_nautilus/redemption.py:993-1002 | a signed transaction is adopted only above the consumed nonces and only if the save succeeds |
| NonceOwnership.Ledger.OnClaimReceipt | src/pm_nautilus/redemption.py:1003-1026 | without a receipt the same bytes go out again; a saved final one confirms the claim exactly if the amount due was paid, fails it exactly if the transaction reverted or paid another amount, starts it over exactly after an approval, and consumes the nonce |
| NonceOwnership.Ledger.TryStartApproval | src/pm_nautilus/redemption.py:741-771 | an approval starts exactly when no claim owns the account, with every missing adapter before it, and is complete at once only if there is none |
| NonceOwnership.Ledger.TryAdoptApproval | src/pm_nautilus/redemption.py:816-832 | an approval's transaction becomes durable only when nobody else owns the account and its nonce is fresh |
| NonceOwnership.Ledger.OnApprovalReceipt | src/pm_nautilus/redemption.py:798-809 | a success clears the transaction and moves to the next adapter, a failure stops the approval and keeps its record; either consumes the nonce |
| NonceOwnership.StepSafe | src/pm_nautilus/redemption.py:158-215 | every step of claims, approvals, crashes and cancellations keeps ownership single and nonces settled |
| NonceOwnership.AccountIsOwnedOnce | src/pm_nautilus/redemption.py:158-215 | over every run at most one transaction owns the account, adopted nonces strictly increase and one nonce is submitted as one transaction only |
| NonceOwnership.ConsumedStaysSilent | src/pm_nautilus/redemption.py:202-215 | a consumed nonce is never submitted again |
| NonceOwnership.CreditedWasPaid | src/pm_nautilus/redemption.py:1003-1026 | over every run a confirmed or credited claim had a receipt of its own adopted transaction that paid the amount due |
| NonceOwnership.FailedWasNotPaid | src/pm_nautilus/redemption.py:1012-1021 | a failed claim had a receipt of its own transaction that reverted or paid another amount |
| NonceOwnership.CompleteMeansApproved | src/pm_nautilus/redemption.py:741-832 | an approval is complete only when each adapter it was started for was approved or found approved since |
| NonceOwnership.WaitingClaimCanBePaid | src/pm_nautilus/redemption.py:985-1026 | whenever nobody owns the account, after any run, a waiting claim can be signed with any fresh nonce, confirmed and credited |
| NonceOwnership.ApprovalCanGoOn | src/pm_nautilus/redemption.py:741-832 | and an approval can start and have its next adapter approved |
| NonceOwnership.OwnerMayAlwaysSend | src/pm_nautilus/redemption.py:1003-1008 | after any run the owner's bytes can be sent again |
| Subscriptions.PouredKeeps | src/pm_nautilus/market.py:1426-1433 | filling groups assigns exactly what it takes, keeps them disjoint and bounded and moves nothing |
| Subscriptions.PouredFull | src/pm_nautilus/market.py:1426-1433 | tokens are left over only when every group is full |
| Subscriptions.FullGroupsCount | src/pm_nautilus/market.py:1441-1445 | full disjoint groups hold two hundred tokens each, together |
| Subscriptions.Hub.Prune | src/pm_nautilus/market.py:1358-1379 | pruning in place drops exactly what nobody subscribes to and closes empty groups |
| Subscriptions.Hub.Compact | src/pm_nautilus/market.py:1383-1425 | compaction keeps every group with a protected token and as few others as the minimum asks, none of them less full than one given up; kept groups lose no token |
| Subscriptions.Hub.OpenGroups | src/pm_nautilus/market.py:1441-1445 | new groups hold what fitted nowhere, as few as possible |
| Subscriptions.Hub.Cover | src/pm_nautilus/market.py:1426-1445 | afterwards exactly the monitored tokens are assigned, and if a group was opened the count is the least possible |
| Subscriptions.Hub.Sync | src/pm_nautilus/market.py:1330-1445 | after every pass the groups are disjoint, nonempty, at most two hundred each and cover exactly the monitored set; no monitored token of an unchanged consumer moved, not even of a rejected one; after an opening the count is minimal |

## Left out

- FeeRules.EverySplitFitsBudget: bounds exact cash; for truncated cash, where the bound can fail, `SplitFees.SplitsFitExactly` gives the exact condition.
- Ladder.PlanBuy: says nothing about which of two asks listed at one price is taken first; a book lists each price once.
- LiveTrades.ReleasedIsExact: assumes that final statuses never change and that a closing answer lists every trade of the order.
- LiveTrades.ReleasedExactlyOnFinalWords: says when an answer releases, not that the venue will send one.
- LedgerTheorems.EveryEventProjects: covers business failures; a failing store call is the subject of RuntimeProjection.
- TestRuns.TestCashAndBudgetsHold: is about simulated trading; a live fill may breach its budget, which the code records and keeps.
- BUY execution against its preview: the quote budget is recomputed at the highest previewed price, so the fills may differ and no equality is claimed.
- Target prices are capped, and a capped price need not be a legal tick; nothing is claimed about that.
- RuntimeRefinement.Happens: where the save of a stop observation or of a closing fails, the source goes on with memory ahead of its rows until that Event is saved again; the model goes on from the rows.
- LedgerRuns.Caught: is a guard of decisions. The code has no such test; synchronous delivery and the stop at the first failed projection stand in for it.
- A restart in simulated trading also marks dead orders finished without releasing their cycles; `LedgerRuns.Retire` marks and releases.
- Failed submissions that only defer an order (stale price, closed market, full storage) differ from other failures in the message and the pause alone; `PostBoundary` has one kind.
- Nautilus engine, order cache, accounts and the Polymarket SDK beyond "an event arrives" and "an order is finished".
- SQLite, WAL and JSON encoding: a transaction is an atomic change, a row reads back as written, and a store call's failure is a counter that runs out.
- Signing, RPC, key storage and hashing; trade identities are taken as they are.
- Discovery, websockets, heartbeats and retry timing; in `Subscriptions` a socket and its task are the group itself.
- Order of dictionary entries, timestamps of rows, displayed prices and labels of tokens.
- `evaluate`, `preview` and `arbitrate` as code: only the conditions under which they submit are modelled.
- Quote-to-base conversion updates, price-limit warnings and the account guard around live submissions.
- Old fills without stored fee and amount fields.
- Configuration checks, static and quote filters, readiness, storage guard, app, web interface, wallet import and backup.
- Float and decimal parsing: the model starts from integer micro-units.
