# Backtest engine, books, verifier, indicators and quality scanner: a verified model

This project models the deterministic backtest of the crypto research backend and proves what its
components promise each other. A run steps once per closed candle. It prices and fills eligible
orders, keeps weighted-average-cost books and a hash-chained ledger, reconciles an engine-owned
protective stop, calls the strategy back and marks to market. It either stops with a named error or
publishes tables that an independent verifier replays.

The files follow the program.

| file | what it holds |
|---|---|
| `Domain`, `CandleFeed`, `Strategy` | orders, fills, limits, configuration; the reading loop's range; views, callbacks and the strategy |
| `Accounting`, `Ledger`, `HashChain`, `Trades`, `TradeDetails` | the portfolio, the postings, the hash-chained builder and its verification, trade derivation |
| `Execution`, `Risk`, `Placement`, `Verdicts` | OHLC quotes and order transitions; the risk manager, the sizer and the stop projection; what a placement and a verdict mean in prices, shares and days |
| `EngineSpec`, `Engine` | the candle state machine as functions on values; the engine object whose methods are proved equal to them |
| `OrderTable`, `Priority`, `BookInvariant`, `RunInvariant`, `RunSafety`, `RunConclusion` | the invariant of a run, step by step |
| `RunTheorems`, `RunRecord`, `RunCurve`, `RunProtocol`, `LookAhead`, `RunHalt`, `RunStops`, `StartOrders`, `RunTrades`, `RunRegimes`, `Timing` | the results about whole runs |
| `Replay`, `ReplayTheorems`, `Verifier`, `VerifierTheorems`, `RejectedRun` | the verifier, and exactly which finished runs it accepts |
| `AcceptanceMeans`, `AcceptedTables`, `ReplayableTables` | what acceptance says of tables the engine need not have written |
| `Indicators`, `ExactIndicators`, `Regime`, `RegimeArtifacts` | EMA, ATR, RSI, MACD, and their values in exact arithmetic; the batch regime detector, the streaming accumulator, the published slice |
| `Coverage`, `QualityScan` | gap and coverage algebra; full and incremental scans |

## Reading the model

- Decimals are exact reals. The program computes money in a decimal context of 28 digits, so every
  equality about money here is about unrounded accounting.
- The indicator operations are not exact: each one is an arbitrary function, standing for whatever
  the fixed indicator context does. `Indicators.Settled` is the only property ever assumed of it, and
  every idempotent rounding has it (`Indicators.IdempotentRoundingSettles`). What the indicators mean is
  stated where nothing is rounded (`ExactIndicators.Exact`): averages between their inputs, a strength
  that is the share of the gains, a regime that follows from distances.
- Identifiers that encode a sequence number are that number. Instants are integer milliseconds.
- A strategy is any function from the calls it has received so far to a reply. That covers every
  deterministic strategy with private state.
- The hash is an arbitrary function. Freedom from collisions is a hypothesis where it is needed.
- Exceptions are the values of `Domain.Failure`. `AccusesOwnBooks` singles out the ones that can only
  mean that the engine's own components disagree.
- Methods are the loops and in-place updates of the program. Each is proved equal to a function, or
  to decide a predicate, and the lemmas are about those functions and predicates.
- What those functions compute is stated without them: a fill's price by the candle and the order
  (`Execution.FillPriced`), an order's terms by cash, position and price (`Placement.Placed`), a stop by
  its percentage (`Risk.TickFloor`), a trade by the fills before it (`TradeDetails.Tells`). The results
  about runs carry these statements to every row a finished run publishes (`RunRecord.RunsAreRecorded`).

## Where the code does less than it seems to

- **A forced close can hide a peak.** The engine marks the last candle at its close, and then sells
  and rewrites that curve point, but the portfolio keeps the peak of the erased mark. The verifier's
  replay never sees that mark. `ForcedCloseReplays` gives the exact condition: the replay accepts the
  run if and only if the erased mark was no new peak or liquidation is free of fees and slippage.
  `ReplayRejectsARun` is a run, for every unit price, that the replay refuses.
- **A forced close rewrites the last curve point.** Runs whose candles agree so far agree on everything
  else they publish. `LookAhead.NoLookAhead` proves that the last shared point changes exactly when no
  candle follows it and a forced close does; `LastPointIsRewritten` is such a run.
- **Start orders are dated by the first candle.** The verifier wants them dated at the evaluation
  start, so a run whose strategy asks for orders at the start is refused unless its first evaluated
  candle opens exactly then.
- **A range may cut its last candle short.** A candle belongs to the range if it opens inside, and the
  last curve point is dated at that candle's close, which the verifier wants inside the range too.
  `CutRangesAreRejected` proves that every run whose last candle closes after the range ends is
  refused. `BoundaryCheckMeetsRuns` proves that the boundary check accepts a run if and only if neither
  this nor the late start order applies, and `BoundaryCheckRejectsRuns` builds runs on both sides.
- **The published curve may show a breach without a halt.** A forced close deepens the last point after
  the last chance to halt. `PublishedHaltIsExplained` gives the exact condition and
  `CurveBreachesUnhalted` a run. A halt itself is always visible on the curve.
- **Deriving trades follows the list, the portfolio follows the candle.** On any list of fills,
  `DerivationDecided` proves that the derivation succeeds exactly when no SELL takes more than the list
  holds before it and none is dated before the BUY that opened its position, and that the first SELL to
  fail decides what is raised. Fills that the portfolio accepts in their order can fail only the second
  test (`TwoAccountingsAgree`, `BackwardRoundTripIsRefused`). The verifier replays fills grouped by
  candle but derives trades in the order of the list, outside any handler, and compares the ledger with
  the fills through its last balances only. `ReplayableFillsAgree` therefore publishes any fills that
  replay in tables that pass every check before the trades, and `AgreedTablesAcceptable` says that such
  tables can be accepted exactly when both tests hold of the list; `VerifyRun` passes on the refusal.
  `AgreedWithoutTrades` and `AgreedButOversold` are tables that fail one test each.
  `AcceptedTradesAddUp` proves that the trades of accepted tables explain the published portfolio exactly
  when the listed fills have the same average cost as the same fills taken candle by candle, as they do
  in candle order or when nothing is held at the end. `AcceptedWithoutExplanation` are accepted tables
  where they do not.
- **A range that cuts its last slot short is over-counted.** `CoverageAccounts` proves the coverage
  sum, and that it is off by exactly one when the last row opens in an incomplete final slot.
  `CutSlotIsOverCounted` is such a range.

`VerifierMeetsRuns` composes three of these: on candles that close before the next one opens, the
verifier's checks of orders, fills, ledger, trades, curve and regimes accept a finished run exactly
when its forced close hid no peak, its start orders are not late and its range does not cut the last
candle short.

`RejectedRun` also shows that the results about finished runs speak of something: it builds, for
every unit price, every close instant, every range its candle opens in and any indicator arithmetic, a
run that submits, fills, marks and liquidates.

## Model

| member | source | states |
|---|---|---|
| Engine.BacktestEngine.RunAll | services/backend/app/backtesting/engine.py:219-457 | the engine object, run over any candles and strategy, returns exactly the value model's outcome, the same named error or the same final state |
| Engine.BacktestEngine.constructor | services/backend/app/backtesting/engine.py:170-229 | a new engine holds the opening state: capital, one opening ledger entry, empty tables, a fresh regime accumulator when one is configured |
| Engine.BacktestEngine.RunCandle | services/backend/app/backtesting/engine.py:231-273 | one context candle: limits, sequence checks, the regime update, then the warmup or the evaluated path |
| Engine.BacktestEngine.ProcessEligibleOrders | services/backend/app/backtesting/engine.py:275-359 | the list of eligible positions is fixed first, and the orders are then processed one by one on a table that changes under it |
| Engine.BacktestEngine.ProcessEligibleOrder | services/backend/app/backtesting/engine.py:276-359 | one position: day expiry, quote, IOC expiry, pre-fill risk check with engine stops exempt, fill, stop, callback, submission |
| Engine.BacktestEngine.FillOrder | services/backend/app/backtesting/engine.py:317-336 | a fill updates portfolio, ledger, fill table, order table and protective stop together or names the first failure |
| Engine.BacktestEngine.MarkCandle | services/backend/app/backtesting/engine.py:361-374 | the mark, its ledger entry, the curve point, and the halt with its sweep of everything but the engine stop |
| Engine.BacktestEngine.CallOnCandle | services/backend/app/backtesting/engine.py:376-405 | the candle callback sees the candle in its history, and its intents are submitted at the close |
| Engine.BacktestEngine.RunWarmupCandle | services/backend/app/backtesting/engine.py:247-271 | a warmup candle feeds history and regime and may not trade |
| Engine.BacktestEngine.SubmitIntents | services/backend/app/backtesting/engine.py:529-595 | intents are sized, checked and recorded in order, each seeing the orders before it; the reserved tag and the order limit stop the run |
| Engine.BacktestEngine.ReconcileStopLoss | services/backend/app/backtesting/engine.py:598-647 | the standing stop is cancelled and one that fits the position is opened, or the limits refuse it |
| Engine.BacktestEngine.CancelOpenOrders | services/backend/app/backtesting/engine.py:724-739 | exactly the OPEN orders a sweep names become CANCELLED at the given instant and no other changes |
| Engine.BacktestEngine.ForceClosePosition | services/backend/app/backtesting/engine.py:412-437 | the whole position is sold at the last close, settled, and the last curve point rewritten |
| Engine.BacktestEngine.ConcludeRun | services/backend/app/backtesting/engine.py:407-462 | terminal cancellation, forced close, final ledger state and last callback, in that order |
| Priority.DuePositionsSorted | services/backend/app/backtesting/engine.py:502-520 | the due-position list names exactly the due OPEN orders, each once, pairwise in the canonical priority; `EligibleInOrder` and `ViewInOrder` say which priority that is |
| Priority.EligibleInOrder | services/backend/app/backtesting/execution.py:246-248 | on a numbered table the eligible list takes the engine's stop first and then ascends in eligibility and, between equals, in sequence number, so an older order is processed before a younger one |
| Priority.ViewInOrder | services/backend/app/backtesting/execution.py:246-248 | the OPEN orders a strategy is shown ascend in eligibility and, between equals, in sequence number |
| Priority.StopComesFirst | services/backend/app/backtesting/engine.py:502-520 | when an engine stop is eligible it is first, and no later position is one |
| RunTheorems.RunsNeverAccuseTheirBooks | services/backend/app/backtesting/engine.py:124-472 | for every strategy, configuration and candle sequence, a run never fails for insufficient cash or position, a negative or diverging ledger, an illegal transition, an invalid view or missing state, and what it publishes satisfies the final invariant |
| RunSafety.EveryStateIsSound | services/backend/app/backtesting/engine.py:231-406 | the whole invariant holds after every candle of every run |
| BookInvariant.TakeFillKeepsInvariant | services/backend/app/backtesting/engine.py:317-336 | a cleared fill is always accepted by portfolio, ledger and order table, and keeps every part of the invariant |
| RunInvariant.ProcessOrdersKeeps | services/backend/app/backtesting/engine.py:275-359 | the precomputed positions stay valid while fills, stops and callbacks change the table they index |
| RunTheorems.OneStopPerPosition | services/backend/app/backtesting/engine.py:598-647 | after every candle a position has exactly one OPEN engine stop, a SELL of the whole quantity at the whole tick with 100 times the stop at most average entry times (100 minus the percentage), which one tick more exceeds; a flat book has none |
| RunTheorems.StopFillsOpenTheirCandle | services/backend/app/backtesting/engine.py:502-520 | every engine-stop fill of a finished run sells, is the first fill of its candle and leaves the position at zero |
| RunTheorems.HaltAllowsOnlyTheExit | services/backend/app/backtesting/engine.py:368-374 | once latched the halt stays, no BUY fills again, and at most one more fill occurs, a SELL of the whole position |
| LookAhead.NoLookAhead | services/backend/app/backtesting/engine.py:231-437 | runs whose candles agree so far publish the same submissions, fills, ledger entries, strategy calls, regimes and curve points so far, except that the last of those points differs exactly when no candle is left to read and a forced close follows |
| StartOrders.StartOrdersAreAskedFor | services/backend/app/backtesting/engine.py:229-290 | a finished run shows an order from before its first evaluated candle if and only if the strategy answers its first call with intents |
| RunTheorems.EveryViewIsHonest | services/backend/app/backtesting/strategy.py:44-78 | every view of a finished run passes its own checks: its history ascends to the current candle, its orders are OPEN and its regime is that candle's; fill callbacks see no candle that had not opened before the fill |
| RunTheorems.OrdersLiveTheirLifecycle | services/backend/app/backtesting/engine.py:275-436 | fills and FILLED orders are one-to-one with equal side and quantity, none fills before the candle after its creation or, for DAY orders, after its day, and all are terminal when cancelled at the end; after every candle MARKET and IOC orders that were due are gone and OPEN orders are within their bound |
| RunTheorems.NothingTradableIsLeft | services/backend/app/backtesting/engine.py:275-359 | after an evaluated candle no order that was due is still OPEN if the candle traded at a price that meets it |
| RunTheorems.OpenOrdersArePlaceable | services/backend/app/backtesting/risk.py:86-112 | every OPEN order but the engine's stop is a whole number of steps no smaller than the minimum, with its trigger on a tick |
| RunTheorems.FillsKeepLimits | services/backend/app/backtesting/risk.py:137-152 | every fill of a finished run keeps the notional limits, engine stops and the forced close aside |
| RunHalt.HaltIsExplained | services/backend/app/backtesting/risk.py:167-173 | after every candle the halt is latched exactly when some point of the curve so far has reached the maximum drawdown and the limits say to stop there |
| RunHalt.PublishedHaltIsExplained | services/backend/app/backtesting/engine.py:361-437 | a halt is visible on the published curve; the converse holds without a forced close, and with one exactly when the run halted or the liquidation itself does not reach the maximum |
| RunTheorems.MoneyIsConserved | services/backend/app/backtesting/portfolio.py:118-209 | in every state cash plus cost is capital plus realized PnL, equity minus capital is realized plus unrealized, and the ledger's sums are the portfolio's balances |
| RunTheorems.FinalMoneyIsConserved | services/backend/app/backtesting/ledger.py:109-250 | the same conservation holds of what a finished run publishes |
| RunTheorems.ExposureIsBounded | services/backend/app/backtesting/risk.py:114-165 | no ledger posting of a run leaves cash below the smaller of capital and reserve, the position is a nonnegative whole number of steps after every candle and at the end, and every BUY fill leaves it within its limit at its own price |
| RunRecord.RunsAreRecorded | services/backend/app/backtesting/engine.py:275-437 | every fill a finished run publishes is priced and charged as its order and its candle say, a forced close at the last close; fills of one candle follow the order of their orders; every order that opened met every check, on the cash and the position the fills before it leave, at the price of its moment: the first open, the fill it answers or its candle's close; every fill and every close is posted |
| RunCurve.RunCurvesAddUp | services/backend/app/backtesting/engine.py:361-374 | a finished run has one point per evaluated candle, at its close, whose equity is cash plus position at that close and whose drawdown is the distance to the peak, in percent of the peak |
| RunProtocol.RunsFollowProtocol | services/backend/app/backtesting/engine.py:228-462 | a finished run read one closed spot series of one instrument within its limit, called the strategy once at the start, once per warmup candle, fill and evaluated candle in order and once at the end with what it publishes, and kept the limits on orders and events |
| RunProtocol.EveryStateFollowsProtocol | services/backend/app/backtesting/engine.py:247-405 | after every candle the history is the latest candles of the window, and the last warmup or candle callback showed the portfolio, the OPEN orders, the last fill, the halt and the regime of the moment |
| RunStops.EveryStopIsExplained | services/backend/app/backtesting/engine.py:598-647 | after every candle an OPEN engine stop was created by the last fill, and every engine-stop fill closes, through the stop the fill before it created, exactly the position and average entry the fills before it add up to |
| RunStops.StopFillsPayAboveTheFloor | services/backend/app/backtesting/stop_loss.py:63-84 | every engine-stop fill a finished run publishes that fired without a gap sold the whole position and realized more than the floor written from the percentage, the tick, the slippage and the taker fee |
| Accounting.ApplyFillAccepts | services/backend/app/backtesting/portfolio.py:118-209 | a fill is accepted exactly when it is affordable; the books it leaves are sound and the mutation's deltas are what changed |
| Accounting.MarkKeepsSound | services/backend/app/backtesting/portfolio.py:128-145 | a mark at a positive price succeeds, changes the valuation only and never lowers the peak |
| Accounting.PartialSaleKeepsAverageEntry | services/backend/app/backtesting/portfolio.py:175-209 | a partial sale leaves the average entry unchanged |
| Execution.QuotesAreFair | services/backend/app/backtesting/execution.py:53-174 | a due order is quoted exactly when its candle trades at a price that meets it; LIMIT orders never trade beyond their limit; `QuotedFillsArePriced` fixes the price |
| Execution.QuotedFillsArePriced | services/backend/app/backtesting/execution.py:53-174 | a fill is based on the open for MARKET, the lower of open and limit for a BUY LIMIT, the higher for a SELL LIMIT, the higher of open and stop for a BUY STOP, the lower for a SELL STOP, with the gap reason exactly when the open lies strictly beyond the trigger; slippage and fee are the configured basis points, maker for LIMIT and taker otherwise |
| Verdicts.VerdictMeans | services/backend/app/backtesting/engine.py:276-316 | a due order expires at the open if it is a DAY order and a midnight has passed, expires at the close if it is IOC and the candle does not trade at a price that meets it, waits if it is another such order, is refused if its fill would break a limit, and fills otherwise |
| Verdicts.TransitionsMoveForward | services/backend/app/backtesting/execution.py:197-215 | an order's status only moves forward, from CREATED to OPEN to a final one; REJECTED follows only CREATED, and FILLED and EXPIRED only OPEN; a transition changes nothing else but its date and code |
| Execution.SlippageIsAdverse | services/backend/app/backtesting/execution.py:151-174 | slippage never improves a price and never takes a SELL to zero |
| Execution.TruncateRoundsDown | services/backend/app/backtesting/execution.py:218-230 | truncation rounds down by less than one step, onto the grid, and changes nothing already on it |
| Risk.RiskChecksAgree | services/backend/app/backtesting/risk.py:75-165 | an order is accepted exactly when its counts, size and trigger allow it, the fill it projects would pass the fill check, and a BUY keeps its position limit at the reference price |
| Risk.SizedBuyIsTight | services/backend/app/backtesting/sizing.py:82-149 | a sized BUY spends at most its target and the cash after reserve and fee, and one more step would exceed one of the two; `SizingKeepsShare` fixes the target |
| Placement.SizingKeepsShare | services/backend/app/backtesting/sizing.py:82-149 | a BUY sized by equity percent costs at most that percent of equity, one sized by fixed notional at most that amount; both keep the larger reserve after the fee, and one more step would break one of the two |
| Placement.EvaluationIsReasoned | services/backend/app/backtesting/risk.py:75-135 | an order is accepted exactly when it passes ten checks stated in counts, steps, ticks, notionals, cash and position, and rejected with the code of the first it fails |
| Placement.DecisionsArePlaced | services/backend/app/backtesting/engine.py:529-595 | an order that opens meets every check at the price assumed for it, on the grid, and a sized BUY keeps its share of equity and its reserve |
| Risk.SizedBuyPassesCashCheck | services/backend/app/backtesting/risk.py:75-135 | a sized BUY is never refused for cash by the risk check that follows, and is not re-truncated |
| Risk.StopPriceIsTickFloor | services/backend/app/backtesting/stop_loss.py:74-84 | the stop is the whole tick with 100 times the stop at most average entry times (100 minus the percentage), which one tick more exceeds |
| OrderTable.ReconcileProtects | services/backend/app/backtesting/engine.py:598-647 | reconciliation leaves exactly the protection the position needs and touches no other order |
| OrderTable.SubmitKeepsTable | services/backend/app/backtesting/engine.py:529-595 | submission only appends orders, OPEN within every limit or REJECTED, none OPEN under a halt |
| Ledger.RecordFillAgrees | services/backend/app/backtesting/ledger.py:171-224 | recording an accepted fill never fails and keeps balances, fees and realized PnL agreed |
| Ledger.FillsArePosted | services/backend/app/backtesting/ledger.py:171-224 | recording a fill posts its notional and quantity, then its fee if it has one, then the profit it realized if any, each with its references, and nothing else |
| Ledger.RecordMarkAgrees | services/backend/app/backtesting/ledger.py:226-250 | recording a mark never fails while the books agree |
| Ledger.BalancesAreSums | services/backend/app/backtesting/ledger.py:109-156 | the last balances are the sums of all deltas ever posted |
| HashChain.BacktestLedger.AppendEvent | services/backend/app/backtesting/ledger.py:109-156 | the builder appends one linked, hashed, nonnegative entry or refuses and changes nothing |
| HashChain.VerifyLedger | services/backend/app/backtesting/ledger.py:305-331 | verification accepts exactly the ledgers with an intact chain, intact postings and distinct hashes, and returns their last balances and hash |
| HashChain.BuiltLedgerHasDistinctHashes | services/backend/app/backtesting/ledger.py:109-156 | without collisions no two entries of a chained, well-posted ledger share a digest |
| HashChain.BuiltLedgerIsAccepted | services/backend/app/backtesting/ledger.py:305-331 | without collisions whatever the builder holds is accepted, with its last balances, which are the sums of all deltas |
| HashChain.FinalHashPinsLedger | services/backend/app/backtesting/ledger.py:271-331 | without collisions two nonempty ledgers with the same final hash are the same entries |
| Trades.DeriveClosedTrades | services/backend/app/backtesting/metrics.py:57-115 | the one-pass derivation is the average-cost lot fold, failures included |
| Trades.DerivationDecided | services/backend/app/backtesting/metrics.py:57-115 | on any list of fills the derivation succeeds if and only if no SELL takes more than the fills before it hold and none is dated before the BUY that opened its position; if it raises, the first SELL to fail decides, for want of quantity before want of order |
| Trades.TwoAccountingsAgree | services/backend/app/backtesting/metrics.py:57-115 | on any fills the portfolio accepts the derivation raises if and only if some SELL is dated before the BUY that opened its position, and only for that; otherwise the open lot dates from that BUY, its notional plus fees is the cost basis, and the trades' net PnL is the realized PnL |
| Trades.BackwardRoundTripIsRefused | services/backend/app/backtesting/domain.py:746-747 | the portfolio accepts one unit bought and then sold at an earlier instant, and the derivation refuses it |
| TradeDetails.EveryTradeTells | services/backend/app/backtesting/metrics.py:57-115 | there is one trade per SELL of a derivable list, and each states the instant its position was entered, its entry and exit fills, the average entry of the fills before it, its gain, its share of the entry fees, its return in percent of its cost and the candles it was held |
| Trades.ProfitMinusLoss | services/backend/app/backtesting/metrics.py:279-286 | gross profit minus gross loss is the trades' net PnL, and together they are the absolute gains and losses of all trades |
| RunTrades.TradesExplainEveryRun | services/backend/app/backtesting/metrics.py:57-115 | the trades derived from any finished run's fills explain its position, its cost basis and its realized PnL |
| RunTrades.FillsExplainEveryRun | services/backend/app/backtesting/portfolio.py:118-209 | a finished run's cash, position, cost, realized PnL, fees and slippage are each a sum over its published fills |
| Replay.ReplayEquity | services/backend/app/backtesting/verifier.py:250-270 | the replay loop, with fills grouped by candle, accepts exactly the curves and final portfolios it can rebuild |
| ReplayTheorems.EveryStateReplays | services/backend/app/backtesting/verifier.py:250-270 | after every candle of every run the replay rebuilds the engine's portfolio |
| ReplayTheorems.RunsReplay | services/backend/app/backtesting/verifier.py:250-270 | every finished run without a forced close is rebuilt exactly, curve and final portfolio |
| ReplayTheorems.ForcedCloseReplays | services/backend/app/backtesting/engine.py:412-437 | after a forced close everything but peak and drawdown is rebuilt, and the replay accepts the run if and only if the close hid no peak |
| RejectedRun.ReplayRejectsARun | services/backend/app/backtesting/engine.py:681-722 | for every unit price, a finished run whose forced close the replay rejects |
| RejectedRun.BoundaryCheckRejectsRuns | services/backend/app/backtesting/verifier.py:690-762 | the boundary check accepts such a run exactly when its candle opens at the evaluation start and closes inside the range |
| RejectedRun.LastPointIsRewritten | services/backend/app/backtesting/engine.py:412-437 | the same run's forced close replaces the point its curve had after its only candle |
| RejectedRun.CurveBreachesUnhalted | services/backend/app/backtesting/engine.py:412-437 | the same run publishes a drawdown past the maximum and no halt |
| Verifier.VerifySequences | services/backend/app/backtesting/verifier.py:765-793 | the sequence check accepts exactly numbered tables whose fills and FILLED orders are one-to-one and agree; `SequencesMean` says in what |
| Verifier.VerifyEvaluationBoundaries | services/backend/app/backtesting/verifier.py:690-762 | the boundary check accepts exactly the tables whose instants and indexes lie inside the evaluation |
| Verifier.VerifyMarketRegimes | services/backend/app/backtesting/verifier.py:506-529 | the regime check accepts exactly the slices that are as long as declared, validate against the curve and equal the rebuild, and neither slice nor count without a policy |
| Verifier.VerifyRun | services/backend/app/backtesting/verifier.py:223-274 | the composed verification accepts exactly when every single check does, and passes on what the first underivable SELL raises |
| AcceptanceMeans.SequencesMean | services/backend/app/backtesting/verifier.py:765-793 | in tables the check accepts every fill executes one FILLED order of equal side, quantity and terminal instant and is not early, no order has two fills, and every FILLED order has one |
| AcceptanceMeans.BoundariesMean | services/backend/app/backtesting/verifier.py:690-762 | in tables the check accepts every order, fill, posting, point and trade is dated inside the evaluation, indexed by one of its candles and lives in order, and start orders and the first posting are dated at its start |
| AcceptanceMeans.LedgerMeans | services/backend/app/backtesting/ledger.py:305-331 | in an accepted ledger every entry carries on the number, the digest and the balances of the one before it, no digest repeats, and the last balances are the sums of all deltas |
| AcceptanceMeans.AcceptedTablesMean | services/backend/app/backtesting/verifier.py:223-274 | acceptance gives all of these, a curve whose every point adds up on the fills of the candles so far, and a final portfolio whose cash, position, cost, realized PnL, fees and slippage are sums over the fills and whose valuation is the last point's |
| AcceptedTables.AgreedTablesAcceptable | services/backend/app/backtesting/verifier.py:223-274 | tables that pass every check before the trades can be accepted with some trades if and only if no SELL takes more than the list holds before it and none is dated before the BUY that opened its position; in candle order the first test always holds |
| AcceptedTables.AcceptedTradesAddUp | services/backend/app/backtesting/verifier.py:250-274 | on any accepted tables the trades' net PnL is off the published realized PnL by the difference between the average cost of the fills as listed and as replayed; the trades explain the portfolio if and only if the two costs are equal, which holds when nothing is held at the end or fills are listed in candle order |
| ReplayableTables.ReplayableFillsAgree | services/backend/app/backtesting/verifier.py:223-274 | any numbered fills inside the range that replay at some closes have tables that pass every check before the trades, and are accepted if and only if no SELL takes more than the list holds before it and none is dated before the BUY that opened its position |
| ReplayableTables.AcceptedWithoutExplanation | services/backend/app/backtesting/verifier.py:250-274 | accepted tables, a sale listed after a later candle's purchase, whose trades do not sum to the published realized PnL |
| ReplayableTables.AgreedWithoutTrades | services/backend/app/backtesting/verifier.py:272-274 | tables that pass every earlier check and whose sale is dated before the purchase listed first |
| ReplayableTables.AgreedButOversold | services/backend/app/backtesting/metrics.py:79-80 | tables that pass every earlier check and whose sale, dated after its purchase, is listed before it |
| VerifierTheorems.RunsPassSequences | services/backend/app/backtesting/verifier.py:765-793 | the sequence check accepts every finished run |
| VerifierTheorems.BoundaryCheckMeetsRuns | services/backend/app/backtesting/verifier.py:690-762 | on well-timed candles the boundary check accepts a finished run if and only if it asks for no orders at the start or its first evaluated candle opens at the evaluation start, and its last candle closes inside the range |
| VerifierTheorems.CutRangesAreRejected | services/backend/app/backtesting/verifier.py:750-754 | on any candles a run whose last candle closes after its range fails the boundary check |
| VerifierTheorems.VerifierMeetsRuns | services/backend/app/backtesting/verifier.py:223-274 | the verifier accepts a finished run, regimes included, if and only if the orders it asks for at the start are on time, its last candle closes inside the range and its forced close hid no peak |
| Timing.EveryStateTimed | services/backend/app/backtesting/engine.py:231-406 | every order, ledger entry and curve point of a run over well-timed candles is dated and indexed inside the evaluation, in lifecycle order |
| Timing.ConclusionTimed | services/backend/app/backtesting/engine.py:407-462 | the end of a run keeps those dates and indexes |
| Regime.DetectRegimes | services/backend/app/indicators/regime.py:211-275 | the detector accepts exactly the series with positive closes and canonical points, and its warmup is as declared |
| Regime.MarketRegimeAccumulator.Update | services/backend/app/indicators/regime_incremental.py:54-106 | one streaming update is the functional step, and a refused candle leaves the accumulator as it was |
| Regime.IncrementalEqualsBatch | services/backend/app/indicators/regime_incremental.py:54-206 | on every candle sequence the folded accumulator accepts exactly what the detector accepts and yields the same points |
| Regime.DetectionIsPrefixStable | services/backend/app/indicators/regime.py:278-286 | the detector accepts every prefix of a series it accepts, and its points as of an index are the prefix of its points on the whole series |
| Regime.StreamPrefix | services/backend/app/indicators/regime_incremental.py:54-106 | every prefix of an accepted stream is accepted with the same points |
| RegimeArtifacts.RebuildObservations | services/backend/app/backtesting/artifacts.py:445-468 | rebuilding reads the context range and keeps exactly the points of evaluated candles |
| RegimeArtifacts.ValidateObservations | services/backend/app/backtesting/artifacts.py:362-442 | revalidation accepts exactly the chronological, aligned, warmup-first slices whose metrics and classification follow from their averages and closes |
| RegimeArtifacts.StreamFits | services/backend/app/indicators/regime_incremental.py:54-150 | every point of an accepted stream is canonical, dated by its candle and unavailable exactly while some average is |
| RunRegimes.RunsPublishRebuiltRegimes | services/backend/app/backtesting/engine.py:228-406 | the slice a run publishes equals the rebuild from its candles and passes revalidation against its curve |
| RunRegimes.PublishedRegimesAreBatch | services/backend/app/indicators/regime.py:211-275 | under settled arithmetic that slice is the end of the whole-series detection |
| Indicators.ExponentialMovingAverage | services/backend/app/indicators/ema.py:38-64 | the one-pass EMA is the recursive definition at every position |
| Indicators.AverageTrueRange | services/backend/app/indicators/atr.py:53-86 | the one-pass ATR is the Wilder average of the true ranges at every position |
| Indicators.RelativeStrengthIndex | services/backend/app/indicators/rsi.py:42-90 | the one-pass RSI is the recursive definition at every position; `RsiMeans` says what that value is |
| Indicators.SmoothIsPrefixStable | services/backend/app/indicators/protocols.py:52-60 | an average as of an index is the prefix of the whole average, and its warmup is exactly as declared |
| Indicators.AtrIsPrefixStable | services/backend/app/indicators/protocols.py:63-71 | the ATR as of an index is the prefix of the whole ATR |
| Indicators.RsiIsPrefixStable | services/backend/app/indicators/rsi.py:42-79 | the RSI as of an index is the prefix of the whole RSI, with exactly its declared warmup |
| Indicators.MacdAligns | services/backend/app/indicators/macd.py:54-121 | for every length and every choice of periods MACD's three lines have the source's length and their declared warmups, and no value is ever unexpectedly missing |
| Indicators.MacdIsPrefixStable | services/backend/app/indicators/protocols.py:74-82 | all three MACD lines as of an index are prefixes of the whole lines, through compaction and realignment |
| Indicators.IdempotentRoundingSettles | services/backend/app/indicators/_math.py:16-26 | every idempotent rounding applied after each operation satisfies the one assumption made of indicator arithmetic |
| ExactIndicators.AveragesMean | services/backend/app/indicators/ema.py:38-64 | without rounding an average starts from the mean of its first period and then moves by two over period plus one of the distance to the new value, or by one over period for Wilder's |
| ExactIndicators.AveragesStayBetween | services/backend/app/indicators/ema.py:38-64 | without rounding both averages stay between the smallest and the largest value seen |
| ExactIndicators.TrueRangesMean | services/backend/app/indicators/atr.py:71-86 | without rounding a true range is the largest of the candle's range and the distances of its high and its low to the previous close |
| ExactIndicators.RsiMeans | services/backend/app/indicators/rsi.py:42-90 | without rounding an RSI value times the sum of the two averages is 100 times the average gain, and 50 when nothing moved; it lies in 0..100 and is above 50 exactly when gains outweigh losses |
| ExactIndicators.OneWaySeries | services/backend/app/indicators/rsi.py:82-90 | without rounding a strictly rising series has strength 100, a strictly falling one 0 and a constant one 50 |
| ExactIndicators.MacdMeans | services/backend/app/indicators/macd.py:54-121 | without rounding the line is the fast average less the slow one, the signal averages the line from its first value on, and the histogram is the line less the signal |
| ExactIndicators.DetectedRegimesMean | services/backend/app/indicators/regime.py:211-303 | without rounding a classified candle is VOLATILE when its average range is at least the configured part of its close, else a TREND, up or down with the fast average, when the averages differ by at least the threshold times that range, else a RANGE |
| ExactIndicators.AcceptedRegimesMean | services/backend/app/backtesting/artifacts.py:362-442 | every classified point of a slice that passes revalidation is dated by its curve point and classified as its averages and that point's close say |
| CandleFeed.ReadOne | services/backend/app/backtesting/artifacts.py:459-467 | a reading loop skips, visits or stops at a candle exactly as its range says |
| CandleFeed.ReadIsTheRange | services/backend/app/backtesting/artifacts.py:459-467 | on candles in order the loop visits exactly those that open inside its range, end excluded |
| Coverage.CountGaps | services/backend/app/market_data/advanced_quality.py:318-323 | the partition loop counts the candles missing between consecutive rows |
| Coverage.ComposeCoverage | services/backend/app/market_data/advanced_quality.py:638-696 | one pass over partition summaries gives the global coverage and its issues, and refuses a nonempty partition without limits |
| Coverage.NoIssueNothingMissing | services/backend/app/market_data/advanced_quality.py:638-696 | a coverage without issues has no gap between partitions and misses nothing at either end of its range |
| Coverage.GapsAreReported | services/backend/app/market_data/advanced_quality.py:638-696 | there is a gap issue, with its path and its first open, for every partition that opens later than the last nonempty one before it lets expect, and no other |
| Coverage.IncompleteIsReported | services/backend/app/market_data/advanced_quality.py:663-696 | the range is reported incomplete exactly when candles are missing at one of its ends |
| Coverage.SummariesCompose | services/backend/app/market_data/advanced_quality.py:638-662 | internal plus cross-partition gaps are the gaps of the concatenated rows, empty partitions included |
| Coverage.CoverageAccounts | services/backend/app/market_data/advanced_quality.py:663-680 | for strictly increasing rows on the grid, observed plus gaps plus missing start and end is the expected count, or one more exactly when the last row's slot is cut short |
| Coverage.CutSlotIsOverCounted | services/backend/app/market_data/advanced_quality.py:663-680 | a range that cuts its only row short counts one candle against none expected |
| QualityScan.ScanPartition | services/backend/app/market_data/advanced_quality.py:245-340 | a partition file is summarized, recorded as corrupt, or refused because its rows open twice |
| QualityScan.ValidateBaseline | services/backend/app/market_data/advanced_quality.py:590-635 | a supplied baseline is trusted exactly when it is compatible, ordered, self-consistent and its digests have their format |
| QualityScan.TrustedBaselineMeans | services/backend/app/market_data/advanced_quality.py:590-635 | a trusted baseline is this dataset's and this scope's, with a version that is empty or a digest long, and its partitions ascend, carry their limits and have digests of 64 lower-case hexadecimal digits |
| QualityScan.ScopeIsTheRange | services/backend/app/market_data/advanced_quality.py:245-340 | a partition scan looks at exactly the rows that open inside the range, end excluded |
| QualityScan.MissingIsReported | services/backend/app/market_data/advanced_quality.py:86-243 | a partition is reported missing exactly when it was removed since the baseline or is a month the range expects and no file has |
| QualityScan.FullScanCoversRows | services/backend/app/market_data/advanced_quality.py:86-243 | the coverage a full scan reports is that of all rows in scope, file after file in the order of their months: their number, their gaps and their first and last open |
| QualityScan.ContentDecidesDigest | services/backend/app/market_data/advanced_quality.py:714-719 | the composed checksum depends on the months and the rows of the partitions and not on how files are stored, and without collisions it decides them |
| QualityScan.Scan | services/backend/app/market_data/advanced_quality.py:86-243 | a full scan reports every file; an incremental one goes ahead exactly when its baseline is resumable and its changed files can be summarized, and reports the merge with the global issues |
| QualityScan.ScanBaselineIsValid | services/backend/app/market_data/advanced_quality.py:590-635 | the baseline a full or incremental scan leaves passes those checks exactly when the catalog's version has length 0 or 64 |
| QualityScan.IncrementalEqualsFull | services/backend/app/market_data/advanced_quality.py:86-196 | from the baseline any earlier scan left, the incremental scan goes ahead exactly when that baseline is resumable; it then returns exactly when a full scan of the current files would and reports the same, with one more issue for every partition removed since |
| QualityScan.ManyScansEqualOne | services/backend/app/market_data/advanced_quality.py:86-196 | after any number of incremental scans the last baseline is that of a full scan, but for the issues of the partitions removed since the scan before |

## Left out

- Rounding of money: equalities hold of unrounded accounting, not of 28-digit decimals.
- Snapshot files, JSON and Parquet artifacts, staging, locks and the re-verification of the snapshot: a snapshot is a given candle sequence and an artifact a given value.
- The manifest, run-identity, artifact-count and checksum comparisons of the verifier, and its check that published metrics are reproducible.
- The checks before the first candle: strategy identity, configuration validity, and the snapshot's identity and coverage.
- SHA-256 and the canonical encodings: the hash is any function of the previous digest and the posting.
- Text identifiers, tags and their syntax checks: they are numbers or opaque values.
- Annualized metrics (growth, volatility, Sharpe, Sortino) and Bollinger bands: they rest on logarithms, exponentials and square roots.
- Calendar time: DAY orders compare UTC day numbers, and everything else compares instants.
- VerifierTheorems.VerifierMeetsRuns: candles must close before the next one opens; a candle's own constructor does not tie its close to the timeframe's grid, the stored data does.
- Engine.BacktestEngine.RunAll: the snapshot is opened, compared with the range and verified again around the run, not in it; strategies are deterministic and cannot alter the values they are shown.
- Verifier.VerifyRun: the published metrics, run identity, artifact counts and checksums are compared elsewhere, and the snapshot is not re-read while the regimes are rebuilt.
- QualityScan.Scan: catalog findings, operational artifacts, the DERIVED path, and the order and truncation of the reported issues.
- QualityScan.ScanPartition: the row audit and the digests are arbitrary deterministic functions, and a partition's path is its month.
- Comparison reports, batch requests, visualization, calendars, the command line, the API and the web front end.
