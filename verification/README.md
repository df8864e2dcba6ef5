# Market-structure engine: model and proofs

This project models the canonical smart-money-concepts pipeline of the
repository and proves properties of whole runs of it: swing detection, the
market-structure state machine, the liquidity and Order Block engines that read
its columns, the unified event stream, the manual-signal strategy with its
position sizing, and two small research cores (the R-multiple walk and episode
grouping). Prices are `real`, a data frame is a sequence of row records whose
missing cells are `None`, and a row is named by its position.

How the pieces fit together:

- `Structure` is the structure engine as a one-sided machine
  `Undecided | Trending(dir, ..) | Challenged(dir, ..)`, written once for a
  direction. `StructureMachine` is the engine's own loop with separate bullish and
  bearish variables, proved to write exactly the rows of that machine. Facts
  about runs (`StructureEvents`, `ProtectedLevels`, `StaleLevels`, `Reflection`,
  `PerCycle`, `StructureLog`) are proved on the machine and so hold of the loop.
- `OrderBlocks` and `Liquidity` give one row of each engine as a function on
  values; `OrderBlockEngine` and `LiquidityEngine` hold the classes with mutable
  blocks, pools and registries and the loops that update them, proved equal to
  those functions. `OrderBlockLife` and `LiquidityLife` relate every block and
  pool to a declarative scan of the rows after its creation; `BlockLog` reads the
  same off the event log.
- `Provisional` couples the Order Block engine with the structure engine, and
  `Footprints` says what promotion and deduplication achieve; `Pipeline` chains
  swings, structure, liquidity and Order Blocks, and with `EqualLevels` bounds what
  a longer series can still change.
- `EventStream` (with `TextIds`), `Selectors`, `Signal`, `BlockGeometry` and
  `Proposals` are the consumers that rely on those run invariants; `SampleRun`
  takes one candle series through all of them to a proposal, `EarlyReturn` the same
  series with every kind of event making blocks, and `CrowdedRow` is a family of
  series whose stream falls out of order. `PositionSize`, `RMultiples`, `Episodes`
  and `CandleValidation` are independent of them.

Methods carry the loops and state changes of the source and are proved against
specification functions; lemmas then speak about those functions. Every lemma is
marked `{:induction false}`: each induction is written out. `dafny verify
dfyconfig.toml` checks the whole project.

Where the code and its own tests, comments or documents disagree, the model follows
the code:

- A BOS assigns the candidate to the protected level and leaves status and
  source alone (`app/analysis/state_machine.py:743-744`). The tests list BOS
  among the operations that never touch a protected level
  (`tests/test_phase3_protected_level_lifecycle.py:174-200`). The claim is true
  of every BOS except one that follows an MSS_INVALIDATED with no pullback in
  between; `ProtectedLevels.BosMovesOnlyStaleLevels` gives the exact condition,
  `StaleLevels.BosMovesShownLevel` the same read off the columns, and
  `ProtectedLevels.BosRewritesALevel` ten candles on which the claim fails.
- `reflect_candles` (`tests/helpers/candles.py:127-150`) assumes that a mirrored
  series gives the mirrored analysis. An equal high is LH and an equal low is LL,
  and on a double swing the low label wins, so this holds exactly on runs without
  such rows (`Reflection.CandlesMirrorIffUntied`). Five candles with equal highs
  show it fail (`Reflection.TiedSeriesDoesNotMirror`); no double swing and no two
  swings of a kind at one price is enough for it to hold
  (`Reflection.DifferentSwingsMirror`).
- Text ids formatted with `:05d` keep emission order only up to 99999
  (`TextIds.IdsKeepOrderIff`), so the sorted stream keeps an engine's emission
  order exactly when no row holds both its events 10^k - 1 and 10^k for a k of
  five or more (`EventStream.AnalysisStreamIsRowWise`), and so always below 100000
  events (`EventStream.ShortStreamsDoNotCross`). 70006 candles with equal highs that
  the last one sweeps break it (`CrowdedRow.CrowdIsReordered`,
  `CrowdedRow.CrowdOfCandles`).
- `docs/ORDER_BLOCKS.md` lets a mitigated block be mitigated again and later be
  invalidated or expire (lines 32 and 56-60) and says that mitigation does not end
  activity (line 71). In the code a mitigated block is not active
  (`app/analysis/models.py:417-422`) and only active blocks are looked at:
  mitigation is final (`OrderBlockLife.EndsAreFinal`, `OrderBlockLife.MitigatedOnce`),
  and the log holds at most one end of a block (`BlockLog.LoggedEndIsFated`).
- The same diagram mitigates a block only once it is confirmed (line 55). Price can
  also come back to a provisional block, and the CHoCH then confirms a block that is
  no longer active (`app/analysis/order_blocks.py:676-691`); a promoted block is
  still active exactly when nothing had happened to it by the CHoCH's row
  (`Footprints.PromotedIsActiveIff`). `EarlyReturn.ReturnComesFirst` is such a run.
- The strategy's comment puts the retracement after the confirmed CHoCH
  (`app/strategies/smc_manual_signal.py:509-515`), but its test is only that the block
  has been mitigated (lines 289-299). Price returned after the CHoCH exactly when the
  block was untouched by the CHoCH's row, as the CHoCH's own block always is
  (`Proposals.ProposalRestsOnTheRun`); the proposal of `EarlyReturn.ReturnComesFirst`
  rests on a return before it.

## Model

| member | source | states |
|---|---|---|
| Swings.DetectSwingPoints | app/analysis/market_structure.py:4-97 | rejects windows below 1 and series shorter than the window; otherwise flags row p exactly when its high (low) strictly exceeds (undercuts) every other row of the window around it, with the extreme as swing price |
| Swings.SwingHighsAreApart | app/analysis/market_structure.py:47-94 | two swing highs are more than min(left, right) rows apart |
| Swings.SwingHighsAreFew | app/analysis/market_structure.py:47-94 | the number of swing highs times min(left, right) + 1 is at most n - left - right + min(left, right), for every series |
| Swings.SwingLowsAreFew | app/analysis/market_structure.py:47-94 | the same bound for swing lows, obtained through the mirror image of the series |
| Swings.SwingsReflect | tests/helpers/candles.py:127-150 | swing highs of the mirrored series are the swing lows of the series, and the other way round |
| Swings.ClassifyMarketStructure | app/analysis/market_structure.py:99-173 | the loop labels every swing against the previous swing of its kind, missing cells included, the low label replacing the high one on a double swing |
| StructureMachine.Classify | app/analysis/state_machine.py:359-402 | section 1a of the loop: label, swing prices and the four baselines it updates |
| StructureMachine.OnHigherHigh | app/analysis/state_machine.py:408-510 | the HH branch on the two-sided variables represents the machine's response to HH: begin, extend, confirm a bullish MSS after its HL, or invalidate a bearish one |
| StructureMachine.OnHigherLow | app/analysis/state_machine.py:512-542 | the HL branch likewise |
| StructureMachine.OnLowerLow | app/analysis/state_machine.py:544-633 | the LL branch likewise |
| StructureMachine.OnLowerHigh | app/analysis/state_machine.py:635-660 | the LH branch likewise |
| StructureMachine.CheckBullish | app/analysis/state_machine.py:693-744 | the close against a bullish state: the guard on the broken-MSS level never blocks, an MSS comes before a BOS |
| StructureMachine.CheckBearish | app/analysis/state_machine.py:750-801 | the mirror of it |
| StructureMachine.Process | app/analysis/state_machine.py:321-840 | one pass through the loop body keeps the variables representing the machine and writes the machine's row, or stops on a negative ATR |
| StructureMachine.DetectStructureState | app/analysis/state_machine.py:15-842 | the two-sided loop writes exactly the rows of the one-sided machine on every input; it fails exactly on a negative minimum break or at the first row whose close is present and ATR negative |
| Structure.RunsAreSound | app/analysis/state_machine.py:236-801 | in every reachable state a candidate implies a protected level, a pullback-sourced level equals the candidate, and the defending side has a detected swing to reseed from |
| StructureEvents.OneRow | app/analysis/state_machine.py:408-801 | what one row can do: stay quiet, BOS with the trend, MSS against it, CHoCH that turns it, or MSS_INVALIDATED that keeps it |
| StructureEvents.RunsAreSentences | app/analysis/state_machine.py:321-840 | the events of any run form (BOS, or MSS followed by CHoCH or MSS_INVALIDATED)*, possibly ending in an open MSS, each with the direction the running trend dictates |
| StructureEvents.ShiftStaysPending | app/analysis/state_machine.py:429-660 | until its first resolving row an MSS stays pending with unchanged origin and level, and has its pullback exactly when one was labelled since |
| StructureEvents.ShiftResolvesAtFirst | app/analysis/state_machine.py:429-633 | nothing is emitted while an MSS is pending; it resolves at the first row labelled with the old impulse (MSS_INVALIDATED) or with its own impulse after one of its pullbacks (CHoCH) |
| StructureEvents.ChallengeHasOrigin | app/analysis/state_machine.py:710-712 | a pending state was opened by the MSS at its origin row, unresolved since |
| ProtectedLevels.LevelsFollowTrend | app/analysis/state_machine.py:413-660 | level, status and source come and go together; only the defending side is protected; broken exactly while an MSS is pending |
| ProtectedLevels.BrokenLevelIsOrigin | app/analysis/state_machine.py:710-717 | from the MSS row to now the broken level, origin level and origin index have not moved and equal the level the MSS broke |
| ProtectedLevels.ResolutionProtects | app/analysis/state_machine.py:435-510 | after MSS_INVALIDATED the reseeded level and after CHoCH the promoted candidate are never missing, with their source and active status |
| ProtectedLevels.BosMovesOnlyStaleLevels | app/analysis/state_machine.py:733-744 | a BOS keeps status and source, and changes the value exactly when the level is a reseeded one whose candidate differs |
| ProtectedLevels.StaleOnlyAfterInvalidation | app/analysis/state_machine.py:501-510 | such a candidate exists only after an MSS_INVALIDATED and before the next pullback of the trend |
| ProtectedLevels.BosRewriteFollowsInvalidation | app/analysis/state_machine.py:743-744 | a BOS that moves the level therefore follows an MSS_INVALIDATED with no pullback in between |
| ProtectedLevels.LevelChangesAreListed | app/analysis/state_machine.py:413-801 | every change of a protected value on a row is a creation, replacement, reseed, promotion, clearing or such a BOS |
| ProtectedLevels.BosRewritesALevel | tests/test_phase3_protected_level_lifecycle.py:174-200 | on ten well-formed candles with a window of one, the last BOS moves the protected low from 3 to 6 and keeps it a latest swing |
| StaleLevels.CandidateIsLastPullback | app/analysis/state_machine.py:512-542 | in every run the candidate is the price in the latest-swing column of the last pullback row of the trend, and the pullback of a pending MSS that of the last one since its origin |
| StaleLevels.StaleReadsOff | app/analysis/state_machine.py:733-744 | a BOS row finds a stale candidate exactly when the columns show it: no pullback on the row, a latest-swing level before it, and a last pullback at another price |
| StaleLevels.BosMovesShownLevel | app/analysis/state_machine.py:733-744 | a BOS of a running trend on a row that is no pullback changes the level column exactly then, and to that price |
| Reflection.RespondMirrors | app/analysis/state_machine.py:408-660 | the label-driven transitions commute with reflection, unconditionally |
| Reflection.BreakMirrors | app/analysis/state_machine.py:693-801 | so do the close-driven ones |
| Reflection.LabelMirrorsIffUntied | app/analysis/state_machine.py:373-397 | a row's label mirrors exactly when it is not labelled on both sides and no labelled swing equals its baseline |
| Reflection.RunMirrorsIffUntied | app/analysis/state_machine.py:321-840 | the whole output mirrors exactly when every row of the run is untied |
| Reflection.CandlesMirrorIffUntied | tests/helpers/candles.py:127-150 | the same for swing detection and structure together, from candles |
| Reflection.DifferentSwingsMirror | tests/helpers/candles.py:127-150 | a series without double swings and without two swings of a kind at one price mirrors, whatever the minimum break |
| Reflection.TiedSeriesDoesNotMirror | tests/helpers/candles.py:127-150 | five well-formed candles with two equal swing highs whose mirrored analysis is not the analysis mirrored |
| PerCycle.PiecesTrackBaseline | app/analysis/state_machine.py:469-476 | cutting the series after every CHoCH loses no row, and the running baseline is that of the last piece alone |
| PerCycle.OnePassIsSplitAndClassify | app/analysis/state_machine.py:333-402 | the canonical structure column is the concatenation of the simple classifier run from scratch on each piece |
| StructureLog.BuildStructureEvents | app/analysis/analysis_engine.py:108-312 | the counter and map loop yields one numbered event per event row, with its strength and the joined MSS of an invalidation |
| StructureLog.PendingIsQuiet | app/analysis/state_machine.py:693-750 | no event row lies between a pending MSS and now |
| StructureLog.InvalidationJoinsPrevious | app/analysis/analysis_engine.py:108-312 | every MSS_INVALIDATED event carries the row and the id of the event just before it, which is an MSS |
| StructureLog.BreaksAreStrong | app/analysis/analysis_engine.py:108-312 | BOS and MSS have strength at least 1, missing exactly when nothing was required; CHoCH and MSS_INVALIDATED have none |
| StructureLog.LogsAreNumbered | app/analysis/analysis_engine.py:108-312 | structure ids count 1, 2, 3, ... in strictly increasing row order |
| OrderBlockEngine.OrderBlock.MarkMitigated | app/analysis/models.py:439-476 | the object's new fields are those of the value transition, including depth and percentage |
| OrderBlockEngine.OrderBlock.MarkInvalidated | app/analysis/models.py:478-499 | likewise for invalidation with its reason |
| OrderBlockEngine.OrderBlock.MarkConfirmed | app/analysis/models.py:501-528 | likewise for confirmation |
| OrderBlockEngine.OrderBlock.MarkExpired | app/analysis/models.py:530-543 | likewise for expiry |
| OrderBlockEngine.OrderBlockRegistry.Add | app/analysis/order_block_registry.py:24-37 | appends exactly when the id is new |
| OrderBlockEngine.UpdateByPrice | app/analysis/order_blocks.py:327-580 | section 1 over the registry: every active later block is price-invalidated, else mitigated on touch, else left, with the events and cells of that |
| OrderBlockEngine.CascadeInvalidation | app/analysis/order_blocks.py:582-663 | section 1b: exactly the active blocks of the invalidated MSS are dropped |
| OrderBlockEngine.PromotePending | app/analysis/order_blocks.py:667-714 | section 1c: the first provisional block of the pending MSS is confirmed, active or not |
| OrderBlockEngine.ExpireOld | app/analysis/order_block_registry.py:268-302 | active blocks of the limit age or more expire; the cell names the last of them |
| OrderBlockEngine.FindOrderBlockCandle | app/analysis/order_blocks.py:68-100 | the backward loop finds the last opposing candle of the lookback window |
| OrderBlockEngine.SweepConfirmed | app/analysis/order_blocks.py:102-135 | true exactly when a sweep of the direction lies between the two rows |
| OrderBlockEngine.FindNewBlock | app/analysis/order_blocks.py:780-965 | the block a row creates, or none when it fails any of the filters |
| OrderBlockEngine.DetectOrderBlocks | app/analysis/order_blocks.py:137-1076 | rejects bad settings; otherwise columns, registry and events of the mutable engine are those of the row-by-row functions |
| OrderBlocks.RunsAreNumbered | app/analysis/order_blocks.py:780-967 | block ids count the blocks, so the registry never refuses one |
| OrderBlockLife.BlockStep | app/analysis/order_blocks.py:327-777 | one row does to a block what its fate on that row says, in the order price, touch, cascade, expiry, and confirms it only by promotion |
| OrderBlockLife.LivesAreFated | app/analysis/order_blocks.py:330-777 | every block's status, index, price and reason are those of its first triggering row after creation |
| OrderBlockLife.EndsAreFinal | app/analysis/order_block_registry.py:88-112 | a block that left the active state keeps it, whatever follows |
| OrderBlockLife.RetracedIsMitigated | app/strategies/smc_manual_signal.py:289-299 | on blocks of a run the retracement test is just the mitigation flag |
| OrderBlockLife.ActiveUntilFate | app/analysis/order_blocks.py:330-777 | in every run a block is active exactly as long as no row after its creation has pierced, touched, cascaded or aged it |
| OrderBlockLife.MitigatedOnce | app/analysis/order_blocks.py:330-580 | a block is mitigated exactly when its first such row is a touch; then that row is recorded, it counts one touch, and it is never also invalidated or expired |
| BlockLog.LoggedEndIsFated | app/analysis/order_blocks.py:330-663 | in the log of any run the mitigations and invalidations of a block are exactly the one event its first fate calls for, with its row, price and percentage, or none |
| BlockLog.LoggedOriginIsRecorded | app/analysis/order_blocks.py:667-1045 | the log holds exactly one creation of every block, and its confirmation exactly when the block records one, on that row |
| Provisional.CycleRow | app/analysis/state_machine.py:408-801 | what a row's event cells say about the pending MSS before and after it |
| Provisional.PromotionFinds | app/analysis/order_blocks.py:671-691 | a CHoCH promotes exactly the provisional block of the MSS it resolves |
| Provisional.RunsAreCoupled | app/analysis/order_blocks.py:292-302 | on rows written by the structure engine every MSS block is waiting for its pending MSS, dropped with its invalidated one or carried by its CHoCH, and the engine remembers the pending MSS exactly when it has a block |
| Provisional.ActiveProvisionalIsPending | app/analysis/order_blocks.py:292-302 | an active provisional block was created on the pending MSS row the structure engine wrote |
| Provisional.ResolvedProvisionalIsDropped | app/analysis/order_blocks.py:586-663 | a provisional block whose MSS is no longer pending saw it invalidated and is not active |
| Provisional.PromotionMatchesChoch | app/analysis/order_blocks.py:667-714 | a promoted block has its CHoCH's direction, comes from the MSS that CHoCH resolved and is never cascaded |
| Provisional.ChochPromotes | app/analysis/order_blocks.py:667-714 | an MSS block whose MSS resolved without invalidation has been confirmed |
| Footprints.ConfirmedOnce | SMC_SPECIFICATION.md:597 | once confirmed, a block keeps its standing, confirming event and confirming row for the rest of the run |
| Footprints.ConfirmedOnItsRow | app/analysis/order_blocks.py:676-691 | a block confirmed at a row was provisional before it, and was given there the CHoCH of that row as the confirming event it still has |
| Footprints.PromotedIsActiveIff | app/analysis/order_blocks.py:667-714 | a promoted block is active after its promotion exactly when no row from its creation to the CHoCH had a fate for it |
| Footprints.CandleDecidesBlock | SMC_SPECIFICATION.md:594 | two blocks of a run on one candle have the same direction, candle prices and edges |
| Footprints.ShiftBlockIsPromoted | app/analysis/order_blocks.py:670-691 | the block of an MSS is the one promoted on the row of the CHoCH that resolves it |
| Footprints.ChochAddsOnlyNewFootprints | app/analysis/order_blocks.py:731-754 | on that row a second block appears exactly when the filters let one through and it stands on another candle than the block of the MSS |
| Footprints.ResolvedShareNoCandle | SMC_SPECIFICATION.md:590-594 | in every run the block of a resolved MSS and a block of the CHoCH that resolved it stand on different candles |
| LiquidityEngine.LiquidityPool.MarkSwept | app/analysis/models.py:187-213 | the object's new fields are those of the value transition |
| LiquidityEngine.LiquidityPool.MarkBroken | app/analysis/models.py:215-239 | likewise for a break |
| LiquidityEngine.LiquidityRegistry.Add | app/analysis/liquidity_registry.py:18-30 | appends exactly when the id is new |
| LiquidityEngine.LiquidityRegistry.ExpireOld | app/analysis/liquidity_registry.py:124-147 | active pools of the limit age or more expire, and no other pool changes |
| LiquidityEngine.CheckPools | app/analysis/liquidity.py:175-497 | section 1: every active pool is swept, else broken, else left, with the events and cells of that |
| LiquidityEngine.FindEqualSwing | app/analysis/liquidity.py:510-765 | sections 3 and 4: the pool an equal high or low creates, and the swing remembered for the next |
| LiquidityEngine.DetectLiquidity | app/analysis/liquidity.py:33-775 | rejects bad settings; otherwise registry, columns and events are those of the row-by-row functions, and the equal-high and equal-low columns, earlier rows included, those of the final pools |
| Liquidity.RunsAreNumbered | app/analysis/liquidity.py:510-765 | pools of a side are numbered in creation order, so ids never collide |
| LiquidityLife.SweepAndBreakExclude | app/analysis/liquidity.py:178-497 | a row never satisfies both the sweep and the break trigger of a pool |
| LiquidityLife.PoolsAreFated | app/analysis/liquidity.py:175-507 | every pool is what its first sweeping, breaking or ageing row after creation makes of it |
| LiquidityLife.PoolsDoNotOutliveAge | app/analysis/liquidity_registry.py:124-147 | with an age limit no pool is active past it |
| LiquidityLife.ActiveCountsBalance | app/analysis/liquidity.py:767-773 | at every row the active count of a side is created minus swept minus broken minus expired so far |
| Pipeline.BlocksFollowStructure | app/analysis/analysis_engine.py:650-700 | in the pipeline the Order Block engine does read the structure engine's columns |
| Pipeline.RowsSettle | app/analysis/market_structure.py:47-94 | with ATR as given, a longer series changes no swing, structure, liquidity or Order Block cell of a row more than right bars before the old end |
| EqualLevels.CellIsPair | app/analysis/liquidity.py:510-765 | after any number of rows the equal-high or equal-low cell of a row names the pool of its labelled swing and the next of that side if they are equal, else of the previous one and it, else nothing |
| EqualLevels.CellChangesIff | app/analysis/liquidity.py:550-605 | such a cell changes between two rows exactly when the next labelled swing of its side comes in between and equals the row's own; after that swing it is final |
| EqualLevels.EqualCellsSettle | app/analysis/liquidity.py:550-605 | with ATR as given, a row more than right bars before the old end shows another cell in a longer series exactly when its next labelled swing of that side comes only there and equals its own |
| TextIds.IdsKeepOrderIff | app/analysis/analysis_engine.py:506-519 | zero-padded ids compare as numbers exactly while none exceeds 99999 |
| TextIds.SameWidthOrder | app/analysis/analysis_engine.py:506-519 | ids of one width compare as numbers, at any width |
| TextIds.PowersFallBack | app/analysis/analysis_engine.py:506-519 | the id of 10^k sorts before that of 10^k - 1 for every k of five or more |
| EventStream.KeyIsRank | app/analysis/analysis_engine.py:506-519 | with increasing times the sort key orders by row, then liquidity, Order Blocks, structure, then emission, except between two events of one engine on one row whose numbers differ in width |
| EventStream.StreamSortsIff | app/analysis/analysis_engine.py:506-519 | one engine's events in emission order have no inversion under the key exactly when no row holds both 10^k - 1 and 10^k for a k of five or more |
| EventStream.ShortStreamsDoNotCross | app/analysis/analysis_engine.py:506-519 | a stream of fewer than 100000 events never crosses |
| EventStream.EngineKeptIff | app/analysis/analysis_engine.py:506-519 | the sort keeps an engine's events in emission order exactly then |
| EventStream.SortedIsRowWise | app/analysis/analysis_engine.py:506-519 | the sorted list runs by row, and on a row by engine, whatever the numbers |
| EventStream.UnifiedStreamIsRowWise | app/analysis/analysis_engine.py:700-712 | the sorted union of three streams is their row-wise merge, with the exact condition for each engine's order |
| EventStream.AnalysisStreamIsRowWise | app/analysis/analysis_engine.py:700-712 | the same for the events of any analysis; structure events, at most one a row, always keep their order |
| CrowdedRow.CrowdIsReordered | app/analysis/analysis_engine.py:506-519 | for every k, on 2k + 6 candles whose last one sweeps k pools at once, the sorted stream loses the liquidity engine's emission order whenever a power of ten of six digits or more lies from 2k + 2 to 3k |
| CrowdedRow.CrowdOfCandles | app/analysis/analysis_engine.py:506-519 | 70006 well-formed candles are such a series |
| Items.SortSorts | app/analysis/analysis_engine.py:506-519 | the sort leaves no inversion under any strict total order |
| Items.SortIsUnique | app/analysis/analysis_engine.py:506-519 | where distinct items always compare there is only one arrangement without inversions |
| Items.OrderIsUnique | app/analysis/candle_validation.py:158-161 | under a strict order a list of items can be arranged in one way only |
| Selectors.Latest | app/strategies/smc_manual_signal.py:132 | max by row over the wanted events, the first of equals |
| Selectors.EvaluateChoch | app/strategies/smc_manual_signal.py:102-140 | the latest CHoCH of the wanted direction; none exactly when the trend has another direction or there is no such CHoCH |
| Selectors.CycleStart | app/strategies/smc_manual_signal.py:143-185 | the row after the last CHoCH or MSS_INVALIDATED strictly before, else 0 |
| Selectors.EvaluateSweep | app/strategies/smc_manual_signal.py:188-238 | the latest sweep of the direction between cycle start and CHoCH, missing exactly when there is none |
| Selectors.EvaluateOrderBlock | app/strategies/smc_manual_signal.py:241-286 | the first confirmed, not invalidated, not expired block of the direction anchored on the CHoCH row |
| Selectors.ChochIsCurrent | app/strategies/smc_manual_signal.py:119-132 | over any run a CHoCH is returned exactly when the last CHoCH of either direction has the wanted direction, and it is that one |
| Selectors.WindowHoldsTheShift | app/strategies/smc_manual_signal.py:143-185 | the sweep window holds the MSS the CHoCH resolves and a pullback that confirmed it, and no cycle ends inside it |
| Selectors.LinkedBlockIsOfTheChoch | app/strategies/smc_manual_signal.py:241-286 | a returned block was created by that CHoCH or by the MSS it resolved |
| Selectors.ResolvedShiftIsUnique | app/analysis/state_machine.py:429-467 | a CHoCH resolves one MSS, the last event before it |
| BlockGeometry.BlocksAreAnchored | app/analysis/order_blocks.py:800-965 | on well-formed candles every block is an earlier opposing candle with low below high, positive ATR and its proximal edge on the side price comes from |
| BlockGeometry.MitigationsAreInside | app/analysis/models.py:439-476 | every recorded mitigation price lies in its block, and its percentage between 0 and 100 |
| Signal.EvaluateTrigger | app/strategies/smc_manual_signal.py:302-359 | the last M5 close exactly when a sweep at or before a CHoCH of the direction lies in the recency window |
| Signal.FindSetup | app/strategies/smc_manual_signal.py:677-731 | the M15 steps stop at the first one that fails, with the evidence of the ones before |
| Signal.CheckContext | app/strategies/smc_manual_signal.py:592-659 | account, open positions and the two higher trends: stops at the first that fails |
| Signal.PlanTrade | app/strategies/smc_manual_signal.py:733-828 | the M5, zone, level and size steps likewise |
| Signal.GenerateSignal | app/strategies/smc_manual_signal.py:488-828 | rejected at the first gate not cleared with that gate's status, raised on a sizing error, proposed exactly when every gate is cleared, with the matching evidence |
| Signal.VerdictIsUnique | app/strategies/smc_manual_signal.py:488-828 | the gates determine the verdict |
| Proposals.ProximalTellsDirection | app/strategies/smc_manual_signal.py:424-433 | proximal at or above distal exactly for bullish blocks |
| Proposals.ZoneIsOneSided | app/strategies/smc_manual_signal.py:368-433 | the entry zone runs from the distal edge to a quarter ATR beyond the proximal one |
| Proposals.LevelsFailAtTheEdge | app/strategies/smc_manual_signal.py:779-793 | an entry in the zone is refused levels exactly at the distal edge itself or when a price or the ratio is not positive |
| Proposals.PricesAreSound | app/strategies/smc_manual_signal.py:763-828 | a proposal's stop is the far edge, the risk at most block height plus a quarter ATR, the reward exactly the ratio times the risk, BUY and SELL mirrored |
| Proposals.SizeIsSound | app/strategies/smc_manual_signal.py:795-828 | its size is tradable and its loss at the stop within the risk amount up to the rounding slack |
| Proposals.RaisedOnAccountOrSymbol | app/strategies/smc_manual_signal.py:796-806 | once levels stand, sizing can only fail on the account or the symbol's specification |
| Proposals.SetupIsCurrent | app/strategies/smc_manual_signal.py:677-686 | the setup of an analysed series rests on its last CHoCH |
| Proposals.ProposalRestsOnTheRun | app/strategies/smc_manual_signal.py:488-828 | every proposal over well-formed candles rests on the last CHoCH of the series, a sweep of its cycle, and a block of that CHoCH or of the one MSS it resolved, mitigated on the first row that did anything to it; that row comes after the CHoCH exactly when the block was untouched by the CHoCH's row, and always for the CHoCH's own block |
| Proposals.ProposalIsSoundFromCandles | app/strategies/smc_manual_signal.py:488-828 | prices and size of every proposal over well-formed candles are sound, from the candles alone |
| SampleRun.SeriesIsProposed | app/strategies/smc_manual_signal.py:488-828 | ten well-formed candles whose analysis, run through every engine, clears every gate, price returning to the block after the CHoCH |
| EarlyReturn.ReturnComesFirst | app/strategies/smc_manual_signal.py:509-515 | the same candles with blocks from every kind of event clear every gate on a block of the MSS, touched on row 7 and confirmed by the CHoCH of row 8; its touch on row 9 is not counted |
| PositionSize.CalculatePositionSize | app/risk/calculator.py:149-248 | fails exactly when a guard does; otherwise the size is 0 when insufficient and within the broker's limits when sufficient |
| PositionSize.SufficientSizeRespectsRisk | app/risk/calculator.py:222-248 | a sufficient size is within the broker's limits and loses at most the risk amount plus (1e-9 step + 5e-9) times the loss per lot |
| PositionSize.OneMoreStepExceedsRisk | app/risk/calculator.py:228-248 | before clamping one more step would exceed the risk amount, up to the rounding unit |
| PositionSize.InsufficientMeansTooSmall | app/risk/calculator.py:233-239 | a refused size means the risk-correct size is below the minimum plus one step and the rounding unit |
| PositionSize.StructuralLevels | app/risk/calculator.py:73-146 | succeeds exactly with positive inputs and the stop on the right side; the take-profit is the ratio times the risk away |
| RMultiples.AnalyseBar | scripts/analyze_rejection_outcomes.py:615-641 | one bar of the first walk, with its three branches, settles a multiple exactly when its target or the stop is reached there |
| RMultiples.WalkBars | scripts/generate_forward_test_research_report.py:968-988 | the second walk's set-removal loop with its early exit leaves exactly the undetermined multiples open and settles every other one as its first target row against the first stop row says |
| RMultiples.AnalyseMultiples | scripts/analyze_rejection_outcomes.py:520-656 | unavailable exactly without a direction, a confirmed block, its distal level or a distance to it; otherwise its own early-exit walk gives each multiple the comparison of its first target row with the first stop row, ties to the stop |
| RMultiples.WalkSetup | scripts/generate_forward_test_research_report.py:928-990 | the second walk gives the same map |
| RMultiples.VerdictsAreMonotone | scripts/analyze_rejection_outcomes.py:609-647 | target_first at a multiple implies it at every smaller one, stop_first at every larger one |
| Episodes.BuildEpisodes | scripts/analyze_rejection_outcomes.py:795-861 | the accumulating loop yields one episode per group, measured at its first evaluation |
| Episodes.GroupsAreMaximal | scripts/analyze_rejection_outcomes.py:795-861 | the groups partition the evaluations into unbroken chains no two of which could be joined |
| Episodes.CutsAreUnique | scripts/analyze_rejection_outcomes.py:795-861 | there is only one such partition |
| CandleValidation.ValidateAndNormalize | app/analysis/candle_validation.py:27-230 | the guards in order, the sort, and the checks on the sorted frame |
| CandleValidation.AcceptedIsNormal | app/analysis/candle_validation.py:27-230 | accepted exactly when non-empty, readable, without repeated times and with prices enclosed; the result is the same candles, strictly increasing in time |
| CandleValidation.OrderDoesNotMatter | app/analysis/candle_validation.py:158-230 | result and reason for rejection do not depend on the order of the rows |
| CandleValidation.NormalFormIsStable | app/analysis/candle_validation.py:27-230 | normalising a normal form changes nothing |
| CandleValidation.NormalFormServes | app/analysis/candle_validation.py:27-230 | a validated series has the increasing times and enclosed prices the event order and the proposals assume |

## Left out

- Times of events, blocks and pools, descriptions, metadata text and conversion to dictionaries: only positions, prices and statuses are kept; event times enter only in the sort.
- Indicator formulas: the ATR is an optional column of the candle, and bounded repainting takes it as given.
- Missing columns, dtype coercion and pandas NA kinds: a frame is a sequence of records; a missing or unreadable cell is None. A positive pip size is a type, age limits are natural numbers, and the text normalisation of event types is not modelled.
- Comparisons with a missing number are taken to be false, as they are for numeric columns; columns of mixed objects are not modelled.
- Floating-point rounding: prices are reals everywhere; only the epsilon and the eight-decimal rounding of position sizing are modelled.
- Items.Sorted: stands for the stable library sorts of events and candles as an insertion sort; only order and contents matter here.
- CandleValidation.ValidateAndNormalize: which of the four numeric columns is reported first is not modelled.
- Registry loops over a copied list of active items are written as loops over the registry with the active test inside; the transitions never reactivate an item.
- Signal.GenerateSignal: the account, the open positions, the two higher trends, the M5 analysis and the symbol's specification are inputs; candle fetching and the terminal connection are not modelled, and the displacement and block evidence are represented by the block itself.
- Consumed pools and fair-value-gap events have no producer and are not modelled.
- The legacy BOS and CHoCH detectors, trend scoring, HTTP routes, terminal access, reports, statistics tables and log writers are not modelled.
