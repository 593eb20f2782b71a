# Verified model of the LP market runtime

A Dafny model of the parts of rhpools whose correctness is not visible in any one function: the
deferred position ledger, the position state machine inside it, the owner rollup and the replica
it is built from, the pairing of call traces with receipts, the integer liquidity math, and two
smaller stateful components (an evicting observation window, and the grace period of the access
gate with the oracle cache it depends on). `dafny verify dfyconfig.toml` checks all of it.

## How it is organised

* **Position machine.** `PositionModel` gives the meaning of one canonical event as a function on
  values; `PositionReplay` is the object that is updated in place and is proved equal to it.
  `AppendProofs`, `OwnershipProofs`, `EpisodeProofs`, `SettlementProofs` and `EventProofs` hold
  the theorems.
  Unknown quantities are `None`; raw amounts are integers.
* **Deferred ledger.** `Histories` orders the events of a position, `ReplayDiff` and `EffectDiff`
  give the difference a projection computes and what committing it later does. `DeferredLedger` is
  the step system: ingest, enqueue, prepare, publish, abandon, roll back, revalue. A prepared
  projection is represented by the snapshot it was read from. `LedgerProofs`, `PublishProofs`,
  `LedgerRuns`, `LedgerMappings` and `LedgerIdentities` prove the invariants over all interleavings,
  `StrayInsert` shows the one way to break them, and `Accounting` with `ReplayFlush` holds the book
  that owns the tables.
* **Owner rollup.** `OwnerReplica`, `ReplicaProofs`, `ReplicaLifecycle` and `ReplicaSync` cover the
  page-by-page copy, the journal and the life of a replica. `SqlAggregates`, `RollupTiers`,
  `RollupWindows`, `RollupAnswers`, `GasRollup` and `OwnerRollup` prove that recency tiers answer
  like a direct scan. Sums are exact reals.
* **Traces.** `TraceDecoders`, `TraceCorrelation` and `TraceUpdates`. An execution tree keeps the
  interleaving of logs and calls; its trace forgets it, and the receipt forgets the frames.
* **Math.** `LiquidityMath`, `TickMath`, `FeeGrowth` and `Allocation`. Square roots at ticks enter
  the principal as bounds `0 < lower < upper`.
* **Smaller components.** `ObservationWindows`, `GateGrace` and `GateOracle`.

## Where the code differs from its own description

* The comment on publication says that same-epoch event changes cannot race a newer publish
  (`src/rhpools/lp_market_accounting.py:2325-2328`). They can hide an event: a late publish may insert the
  effect row of an event that has lost its position and been queued for another one with an append
  proof. `StrayInsert.HiddenEventRun` is such a run, `PublishProofs.PublishKeepsClaimsExactly` the
  exact condition, and `LedgerMappings.MappedMeansReplayed` the promise for all runs that unmap no
  event under a projection prepared with it.
* `_liquidity_for_budget` promises the greatest liquidity that fits; for an empty budget it returns
  zero even where one unit is worth nothing (`Allocation.EmptyBudgetMissesLiquidity`), and is right
  exactly where one unit does not fit (`Allocation.EmptyBudgetIsGreatestExactly`).
* A V3 collect whose recorded fees exceed the collected amount is split into parts that do not add
  up (`SettlementProofs.CollectSplitsExactly`, `SettlementProofs.OverstatedFeesBreakTheSplit`).
* Grace can end up to one write step short of the configured period when the wallet's observation
  leaves the oracle cache between two calls (`GateOracle.GraceCanEndAStepEarly`). A balance is
  honoured for its whole period exactly under the condition of `GateGrace.FullGraceExactly`, which
  always holds while the cache is dropped only for a newer policy
  (`GateOracle.RememberedGraceIsExact`).
* Two intervals of a position can be open at once: a transfer to the recorded owner from somebody
  else opens a second one (`OwnershipProofs.HandedAgain`), unless it only confirms a mint. Exactly
  such events do (`OwnershipProofs.OwnershipByEvents`).
* An episode of another position can be in the gas-changed set although its transactions stay the
  same (`ReplayDiff.OtherMarkedUnchanged`): it is there exactly when one of its effects moves
  (`ReplayDiff.OtherGasChangedExactly`), and its transactions stay exactly when each one it loses a
  row of has another row (`ReplayDiff.OtherGasMarked`). No change is ever missed.

## Model

| member | source | states |
|---|---|---|
| `PositionReplay.Replayer.ProcessTransfer` | src/rhpools/lp_market_accounting.py:3452-3567 | A token transfer closes the open interval and the active episode, then records the receiver; the object ends exactly in the state of the two-part specification whose ownership law is `OwnershipIntervals` |
| `PositionReplay.Replayer.UpdateIdentity` | src/rhpools/lp_market_accounting.py:3569-3612 | An observed owner is adopted, opens an interval, or marks a conflict; tied to the specification step |
| `PositionReplay.Replayer.UpdateLiquidity` | src/rhpools/lp_market_accounting.py:3700-3720 | What an event proves about liquidity and claims, and what a proved zero baseline completes |
| `PositionReplay.Replayer.ChooseEpisode` | src/rhpools/lp_market_accounting.py:3721-3763 | Which episode an event opens, joins or displaces, including ambiguous re-entry and partial history |
| `PositionReplay.Replayer.UpdateClaims` | src/rhpools/lp_market_accounting.py:4072-4113 | Pending principal and owed amounts after an event, where unknown stays unknown |
| `PositionReplay.Replayer.CloseEpisode` | src/rhpools/lp_market_accounting.py:3768-3809 | When the active episode is completed, waits for its claim or stays open, and when it takes its principal from its releases |
| `PositionReplay.Replayer.ProcessEvent` | src/rhpools/lp_market_accounting.py:3614-3823 | One event in program order: state and buffered rows are those of the specification step |
| `PositionReplay.MarkEvents` | src/rhpools/lp_market_accounting.py:3364-3382 | The loop over transactions marks exactly the first add before a token mint and the last collect before a burn |
| `PositionReplay.PrepareEvents` | src/rhpools/lp_market_accounting.py:3347-3390 | The loop that strips pinned snapshots leaves them only at the two edges of each block |
| `PositionReplay.Replayer.Derive` | src/rhpools/lp_market_accounting.py:3338-3409 | A derivation folds the prepared events and saves the episode left active |
| `AppendProofs.PreparedConcat` | src/rhpools/lp_market_accounting.py:3347-3390 | Preparing two histories that share no block prepares each part by itself: no mark and no pin crosses a block edge |
| `AppendProofs.AppendIsReplay` | src/rhpools/lp_market_accounting.py:3234-3277 | Storing a derivation and appending later blocks gives the rows and the state of one derivation of the whole history |
| `AppendProofs.SettledPriorIsUnreachable` | src/rhpools/lp_market_accounting.py:3727-3745 | The path that drops an active episode without saving it cannot be reached from any history |
| `OwnershipProofs.ProcessOwned` | src/rhpools/lp_market_accounting.py:3452-3612 | One event keeps the chain of ownership intervals intact if and only if it is not an overlapping transfer |
| `OwnershipProofs.OwnershipIntervals` | src/rhpools/lp_market_accounting.py:3452-3612 | Over every run from scratch, intervals are ordered, disjoint, and open exactly with the recorded owner after each event, if and only if no event overlaps |
| `OwnershipProofs.OwnershipByEvents` | src/rhpools/lp_market_accounting.py:3452-3612 | The same condition on the events alone: the intervals stay in order if and only if no transfer hands the position to its holder from somebody else, other than the one confirming a mint |
| `OwnershipProofs.HandedAgain` | src/rhpools/lp_market_accounting.py:3452-3612 | Two events from scratch that break it: a mint to an owner, then a transfer to the same owner from a third party |
| `EpisodeProofs.ReplayConserves` | src/rhpools/lp_market_accounting.py:3764-3821 | Raw deposits and proceeds of every episode are the sums over the effect rows attributed to it, and no effect names a missing episode |
| `EpisodeProofs.ReplayNames` | src/rhpools/lp_market_accounting.py:3825-3837 | Episodes of a replay carry their restored ordinal or one above every ordinal in use; no two share an opening |
| `EpisodeProofs.IdentitiesSurvive` | src/rhpools/lp_market_accounting.py:543-574 | Between two full replays of any two histories, an opening found in both keeps its ordinal and no new row reuses one |
| `SettlementProofs.CompletionNeedsZeroLiquidity` | src/rhpools/lp_market_accounting.py:3768-3807 | An event stores an episode as complete only if liquidity was proved zero, by a clean burn or by settled claims |
| `SettlementProofs.CompleteEpisodesWereEmpty` | src/rhpools/lp_market_accounting.py:3768-3807 | Every complete episode of every replay was closed by an event of the history that proved the position empty |
| `SettlementProofs.CollectSplitsExactly` | src/rhpools/lp_market_accounting.py:3867-4046 | A V3 collect is split into principal and fees without remainder if and only if its recorded fees do not exceed the amount collected |
| `SettlementProofs.OverstatedFeesBreakTheSplit` | src/rhpools/lp_market_accounting.py:3867-4046 | A concrete collect whose recorded fees exceed it is split into parts that do not add up |
| `SettlementProofs.V3EpisodesAccount` | src/rhpools/lp_market_accounting.py:3786-3802 | For a V3 history with recorded fees within each collect, principal plus fees equals proceeds per token in every episode whose fees are exact |
| `EventProofs.ReplayTells` | src/rhpools/lp_market_accounting.py:3867-4046 | Every V4 action, V3 add or collect and V2 add or remove has an effect row that reports its cash exactly, by sign into paid in and paid out, and unknown exactly where the event leaves it unknown |
| `EventProofs.PinnedLiquidity` | src/rhpools/lp_market_accounting.py:3657-3702 | A pinned liquidity after an event overrides whatever was known |
| `EventProofs.LiquidityTracksDeltas` | src/rhpools/lp_market_accounting.py:3642-3705 | From a known value on, liquidity stays known and is the running sum of the signed changes while that sum is not negative |
| `ReplayDiff.DiffLands` | src/rhpools/lp_market_accounting.py:589-666 | With no publish in between, a full replay leaves exactly the desired rows and an append leaves the old rows overridden by the new, and surviving episodes keep their derived columns |
| `ReplayDiff.OthersKeepTheirRows` | src/rhpools/lp_market_accounting.py:481-495 | The guarded delete and upsert never touch a row held by the position its event is mapped to |
| `ReplayDiff.GasChangedExactly` | src/rhpools/lp_market_accounting.py:725-799 | On a full replay the gas-changed set contains an episode of the position exactly when its set of transactions changes |
| `ReplayDiff.AppendGasChangedExactly` | src/rhpools/lp_market_accounting.py:681-724 | The same for an append of events that have no effect row yet |
| `ReplayDiff.OtherGasChangedExactly` | src/rhpools/lp_market_accounting.py:752-799 | An episode of another position is in the set exactly when one of its effects is taken over |
| `ReplayDiff.OtherGasMarked` | src/rhpools/lp_market_accounting.py:752-799 | An episode of another position whose set of transactions changes is always in the set; it is unchanged if and only if every transaction of a row it loses is still reported by a row it keeps |
| `ReplayDiff.OtherMarkedUnchanged` | src/rhpools/lp_market_accounting.py:752-799 | Two rows of one transaction, one of which moves: the other position's episode is in the set although its transactions stay the same |
| `EffectDiff.DiffEffects` | src/rhpools/lp_market_accounting.py:673-799 | The row-by-row loops compute exactly the stale rows, the changed rows and the gas-changed set of the specification |
| `Accounting.AccountBook.QueuePositionKeys` | src/rhpools/lp_market_accounting.py:1711-1789 | Insert-or-ignore followed by the bump requeues every key: a new row has generation one, an existing row keeps a proof only if it is repeated |
| `Accounting.AccountBook.Apply` | src/rhpools/lp_market_accounting.py:2761-2938 | The loop over a batch remaps its events and gathers the append and cost proofs of every touched position; the tables end as the enqueue step says |
| `Accounting.AccountBook.EventRows` | src/rhpools/lp_market_accounting.py:3214-3232 | The events of a position in chain order, as a function of their set alone |
| `Accounting.AccountBook.RestoreIdentities` | src/rhpools/lp_market_accounting.py:543-574 | Saved ordinals first, published ones over them, and the highest ordinal known |
| `Accounting.AccountBook.AppendPosition` | src/rhpools/lp_market_accounting.py:3234-3277 | Declines exactly when there is nothing new, no stored state, or a shared or earlier block; otherwise derives the new events |
| `Accounting.AccountBook.PreparePending` | src/rhpools/lp_market_accounting.py:2249-2309 | What a preparer computes on its snapshot, by cost-only, append or full replay |
| `Accounting.AccountBook.PublishPending` | src/rhpools/lp_market_accounting.py:2312-2364 | Commits a possibly older snapshot of the same epoch, row by row; the queue row goes only if its generation still matches |
| `ReplayFlush.Flush` | src/rhpools/lp_market_accounting.py:816-839 | The guarded deletes and then the guarded upserts, one row at a time, leave the tables the diff describes, whatever the order of the rows |
| `Accounting.AccountBook.RollbackDeferred` | src/rhpools/lp_market_accounting.py:3099-3195 | Queues, saves identities of, and clears every position with an event, effect or state above the ancestor, and starts a new epoch |
| `LedgerProofs.PreparationIsReplay` | src/rhpools/lp_market_accounting.py:2249-2309 | Whatever path the preparer takes, the rows it aims at are a full replay of the events mapped on its snapshot |
| `PublishProofs.TargetArrives` | src/rhpools/lp_market_accounting.py:2312-2348 | A late publish still lands its whole target while the position's events are where they were on the snapshot |
| `PublishProofs.PublishKeepsClaimsExactly` | src/rhpools/lp_market_accounting.py:2312-2364 | A publish preserves every position's promise if and only if it inserts no effect row for an event meanwhile queued elsewhere with an append proof |
| `LedgerRuns.CleanMeansReplayed` | src/rhpools/lp_market_accounting.py:2249-2364 | In every state of every run of ingest, enqueue, prepare, late publish, requeue, revaluation and rollback steps with that guard, a position without a queue row shows a full replay of exactly its mapped events |
| `LedgerMappings.MappedMeansReplayed` | src/rhpools/lp_market_accounting.py:2249-2364 | The same without a guard on publishes: in every run whose applies unmap no event under a projection prepared with it, a position without a queue row shows a full replay of exactly its mapped events |
| `LedgerMappings.MappedRunIsGuarded` | src/rhpools/lp_market_accounting.py:2761-2938 | In every such run no publish, however late, inserts a stray effect row |
| `LedgerRuns.OldEpochsNeverCommit` | src/rhpools/lp_market_accounting.py:2316-2317 | Every publish commits the snapshot of the latest prepare of its position, and nothing at all if a rollback came in between |
| `LedgerIdentities.NeverStolen` | src/rhpools/lp_market_accounting.py:481-495 | Over any stretch of a run, a row held by the position its event is mapped to is neither overwritten nor deleted by publishes of other positions, however old |
| `LedgerIdentities.IdentitiesSurviveRuns` | src/rhpools/lp_market_accounting.py:543-574 | In every run, over appends, full replays and rollbacks, while no publish finds the position without events, a surviving opening keeps its ordinal and a fresh ordinal exceeds all earlier ones |
| `LedgerIdentities.RollbackKeepsNames` | src/rhpools/lp_market_accounting.py:3157-3171 | A rollback leaves the ordinals a later replay restores exactly as they were, although the rows are gone |
| `LedgerIdentities.PublishKeepsNames` | src/rhpools/lp_market_accounting.py:543-574 | A publish from a stale snapshot keeps the ordinals of the published or saved openings |
| `StrayInsert.HiddenEventRun` | src/rhpools/lp_market_accounting.py:2843-2938 | A concrete run without the guard: an event prepared for one position, unmapped, and mapped to another with an append proof ends up hidden from it, and the position is clean but wrong |
| `StrayInsert.PublishedAtOnce` | src/rhpools/lp_market_accounting.py:2272-2294 | Preparing and publishing at once is right if and only if no append is possible or none of the position's events has its effect row elsewhere |
| `OwnerReplica.TriggersAreExact` | src/rhpools/lp_owner_rollup.py:38-68 | The journal rows of an insert, update, key change or delete replay to exactly that change of the projected table |
| `OwnerReplica.UnjournalledKeeps` | src/rhpools/lp_owner_rollup.py:38-68 | A key that a write does not journal keeps its row at its rowid |
| `ReplicaProofs.PageKeepsCopy` | src/rhpools/lp_owner_rollup.py:183-208 | Copying the next page from any later snapshot keeps the copy right about every key without journal rows since the start |
| `ReplicaProofs.ReplayAdvances` | src/rhpools/lp_owner_rollup.py:231-257 | Replaying a journal page moves the replica towards its target, by a full page or to the target itself, and keeps it consistent with it |
| `ReplicaSync.ReadPage` | src/rhpools/lp_owner_rollup.py:187-192 | A page is the first rows in rowid order from the cursor up to the bound |
| `ReplicaSync.RollupReplica.Synchronize` | src/rhpools/lp_owner_rollup.py:175-260 | With every read from a different snapshot and the journal pruned in between, a finished synchronization leaves each table as it stood at the target position, and an interrupted one can be resumed |
| `ReplicaLifecycle.NoJournalError` | src/rhpools/lp_owner_rollup.py:231-243 | In every sound state neither journal error can be raised |
| `ReplicaLifecycle.JournalOutlivesReplica` | src/rhpools/lp_market_accounting.py:962-988 | Over all runs of build, deadline failure, crash, rejected publish, acknowledgement, release and bounded prune, no journal row above a live replica's position is deleted |
| `ReplicaLifecycle.FinishedReplicaIsSnapshot` | src/rhpools/lp_owner_rollup.py:175-260 | Whenever a run finishes a synchronization, each replica table shows the source table as it stood when the target was read |
| `RollupTiers.WindowIsTiers` | src/rhpools/lp_market_accounting.py:5536-5541 | A timestamp is in a window exactly when its tier is at most the window's depth |
| `RollupTiers.BlankIsEmpty` | src/rhpools/lp_market_accounting.py:5543-5549 | The test for an empty total is true of a summary only if it summarizes nothing |
| `RollupTiers.SummariesMerge` | src/rhpools/lp_market_accounting.py:5543-5557 | Merging the rows of disjoint selections gives the row of their union, with NULL-aware sums and extreme times |
| `RollupWindows.WindowPositions` | src/rhpools/lp_market_accounting.py:5634-5670 | Positions and open non-stale positions counted by the tier of their latest episode are the distinct positions of a direct scan of the window |
| `RollupWindows.WindowIsItsTiers` | src/rhpools/lp_market_accounting.py:5828-5856 | The tiers of a window taken together are the direct scan of that window |
| `RollupAnswers.TiersAnswerLikeScan` | src/rhpools/lp_market_accounting.py:5362-5420 | For every window, protocol and identity, the row answered from the tiers equals the row of the direct aggregate query, for owners and custodies |
| `RollupAnswers.GasTiersAnswerLikeScan` | src/rhpools/lp_market_accounting.py:4891-4927 | Pairs, known costs and their sum over the tiers of a window equal the direct scan of the window's transactions |
| `RollupAnswers.OneMoreGasTier` | src/rhpools/lp_market_accounting.py:5671-5706 | Merging the gas row of one more tier adds exactly the transactions of that tier |
| `OwnerRollup.GroupComponents` | src/rhpools/lp_market_accounting.py:5615-5633 | The loop over grouped rows fills the rows of each protocol and, by merging, of all protocols together |
| `GasRollup.BuildGas` | src/rhpools/lp_market_accounting.py:5671-5706 | The loop over grouped gas rows leaves one row per owner, scope and tier that has a transaction, with exactly the costs of those transactions |
| `OwnerRollup.Rollup.Build` | src/rhpools/lp_market_accounting.py:5559-5706 | A build leaves one row per identity, scope and tier that has an episode, with exact components and position counts, and the gas rows likewise |
| `OwnerRollup.Rollup.Gas` | src/rhpools/lp_market_accounting.py:5828-5866 | Adding up the gas rows of a window reports for every owner what the direct query over the transactions of the window reports: their cost, or unknown when one cost is missing |
| `GasRollup.ReportedIsDirect` | src/rhpools/lp_market_accounting.py:4891-4927 | The merged pair and cost counts decide unknown exactly like the direct query |
| `OwnerRollup.Rollup.View` | src/rhpools/lp_market_accounting.py:5828-5856 | Adding up the rows of a window in any order yields exactly the identities and totals of its tiers |
| `TraceDecoders.SintRoundTrip` | src/rhpools/lp_market_protocols.py:381-387 | The signed decoder accepts exactly the sign-extended words, each as the value it encodes |
| `TraceDecoders.BalanceDeltaRoundTrip` | src/rhpools/lp_market_protocols.py:1605-1612 | Decoding a balance delta gives two signed 128-bit amounts that encode back to the word |
| `TraceDecoders.DeltaBalanceRoundTrip` | src/rhpools/lp_market_protocols.py:1605-1612 | Encoding two signed 128-bit amounts decodes back to them |
| `TraceDecoders.DecodeEncoded` | src/rhpools/lp_market_protocols.py:1615-1656 | The canonical ABI encoding of any arguments and hook data decodes to those arguments |
| `TraceDecoders.OnlyEncodedDecodes` | src/rhpools/lp_market_protocols.py:1615-1656 | Nothing but a canonical ABI encoding decodes |
| `TraceCorrelation.WalkInOrder` | src/rhpools/lp_market_protocols.py:1659-1670 | The walk visits frames in strictly increasing path order |
| `TraceCorrelation.WalkIsTrue` | src/rhpools/lp_market_protocols.py:1659-1670 | The trace logs of every visited frame are exactly the surviving logs it emitted, in order |
| `TraceCorrelation.EmissionOrder` | src/rhpools/lp_market_protocols.py:1740-1757 | For frames that are not nested in each other, path order is emission order |
| `TraceUpdates.GroupCalls` | src/rhpools/lp_market_protocols.py:1692-1733 | The loop over frames collects the accepted calls by event and fails exactly when a frame is rejected |
| `TraceUpdates.Correlate` | src/rhpools/lp_market_protocols.py:1673-1771 | Succeeds exactly when every event occurs equally often in trace and receipt and no two frames of one event are nested, and then pairs them in order |
| `TraceUpdates.CorrelationIsRight` | src/rhpools/lp_market_protocols.py:1659-1771 | Whenever the correlation succeeds, every surviving ModifyLiquidity log gets the return values of the call frame that emitted it, and no other log gets any |
| `LiquidityMath.PrincipalIsFloor` | src/rhpools/lp_math.py:109-121 | In every branch the nested floor divisions are the floor of one exact quantity per token |
| `LiquidityMath.PrincipalGrowsWithLiquidity` | src/rhpools/lp_math.py:109-121 | Both amounts are nonnegative and nondecreasing in liquidity |
| `LiquidityMath.PrincipalFollowsPrice` | src/rhpools/lp_math.py:109-121 | Token 0 is nonincreasing and token 1 nondecreasing in the price |
| `LiquidityMath.SplittingLosesLittle` | src/rhpools/lp_math.py:109-121 | Cutting a range into n adjacent bands of the same liquidity loses between 0 and n - 1 raw units per token |
| `LiquidityMath.RoundingGap` | src/rhpools/lp_math.py:84-106 | Rounding both divisions up exceeds rounding both down by one unit unless the quotient is exact, and then by none |
| `TickMath.SqrtRatioAtTick` | src/rhpools/lp_math.py:53-66 | The loop over the bits of the tick computes the specified product, and declines exactly the ticks outside the domain |
| `TickMath.SqrtRatioPositive` | src/rhpools/lp_math.py:53-66 | Every tick has a positive ratio, however the bits fall |
| `TickMath.TickAtSqrtPrice` | src/rhpools/lp_math.py:69-81 | The bisection ends where the ratios pass the price, and declines exactly the prices outside the range |
| `TickMath.TickIsGreatest` | src/rhpools/lp_math.py:69-81 | If ratios rise with the tick, that is the greatest tick whose ratio is not above the price |
| `FeeGrowth.CrossingKeepsInside` | src/rhpools/lp_math.py:145-150 | Flipping an outside value when its tick is crossed leaves the growth inside unchanged |
| `FeeGrowth.InsideTracksGrowth` | src/rhpools/lp_math.py:145-150 | Over any run of accruals and price moves, the inside growth moves by the growth in range modulo 2^256 |
| `FeeGrowth.LazyFeeIsExact` | src/rhpools/lp_math.py:124-126 | If the growth in range since the checkpoint is below 2^256 the lazy fee is exact however often the accumulators wrap |
| `FeeGrowth.ClaimIsExact` | src/rhpools/lp_math.py:129-153 | The whole claim is what was owed plus the exact fees of both tokens |
| `Allocation.ValueMonotone` | src/rhpools/lp_allocation.py:109-122 | The value of a liquidity is nonnegative and nondecreasing |
| `Allocation.LiquidityForBudget` | src/rhpools/lp_allocation.py:125-156 | For a positive budget the search returns the greatest liquidity that fits, and fails exactly when 2^255 still fits |
| `Allocation.EmptyBudgetIsGreatestExactly` | src/rhpools/lp_allocation.py:132-134 | An empty budget is answered with no liquidity, which is the greatest that fits exactly when one unit does not |
| `Allocation.EmptyBudgetMissesLiquidity` | src/rhpools/lp_allocation.py:132-134 | For every range from tick 0 to a higher tick, at the price of tick 0, one unit of liquidity fits an empty budget, whichever token is the stable one |
| `Allocation.SnapsCover` | src/rhpools/lp_allocation.py:159-164 | Snapped ticks are multiples of the spacing inside the usable ticks and cover a usable range |
| `Allocation.Partition` | src/rhpools/lp_allocation.py:167-176 | The bands tile the range on multiples of the spacing, as many as requested where there is room, and none is dropped |
| `Allocation.WeightsFollowShape` | src/rhpools/lp_allocation.py:179-185 | Weights are symmetric; a curve rises by two per band towards the centre, a bid-ask shape falls by two |
| `Allocation.Budgets` | src/rhpools/lp_allocation.py:188-198 | Budgets are nonnegative, sum to the total, and each is within one raw unit of its weighted share |
| `Allocation.BandPlan` | src/rhpools/lp_allocation.py:287-325 | The capital is shared over the bands in proportion to the shape, every band buys the most its share allows, the reported liquidity, amounts and legs are the sums over the bands and never cost more than the capital, and there is no plan exactly when a liquidity of 2^255 fits the positive budget of some band |
| `ObservationWindows.ObservationWindow.Ingest` | src/rhpools/lp_flow_tags.py:537-550 | After every batch the window holds exactly the last writes of all rows ever ingested whose time is not before latest minus the window |
| `ObservationWindows.ObservationWindow.Evict` | src/rhpools/lp_flow_tags.py:552-563 | Dropping the old prefix of the order list removes every expired observation and nothing else |
| `ObservationWindows.ObservationWindow.Observations` | src/rhpools/lp_flow_tags.py:565-567 | The observations of a transaction in index order are exactly its entries in the window |
| `ObservationWindows.Seek` | src/rhpools/lp_flow_tags.py:737-750 | With nondecreasing times every event up to the returned sequence is older than the window, and no later start has that property |
| `GateGrace.Gate.Entitlement` | src/rhpools/lp_gate.py:529-565 | A call drops refuted anchors, decides, and remembers what qualified; other wallets are untouched |
| `GateGrace.GraceIsEarned` | src/rhpools/lp_gate.py:259-271 | Grace is granted only on the strength of an earlier fresh balance at or above the threshold, under the same policy version, observed at most the grace period ago and not refuted since |
| `GateGrace.GraceIsExact` | src/rhpools/lp_gate.py:547-564 | Without a fresh balance a feature is granted if and only if some balance that qualified, moved the anchor and was not refuted since is at most the grace period old |
| `GateGrace.FullGraceExactly` | src/rhpools/lp_gate.py:547-564 | An unrefuted qualifying balance is honoured for its whole grace period if and only if its call moved the anchor, or found one no older than the balance, or a later call moved it |
| `GateGrace.EarnedGraceIsGranted` | src/rhpools/lp_gate.py:547-564 | Every such balance is honoured for the grace period less one write step |
| `GateGrace.SpacedGraceIsExact` | src/rhpools/lp_gate.py:547-564 | Where observations of one version are a write step apart, grace is granted if and only if some unrefuted qualifying balance is at most the grace period old |
| `GateOracle.Oracle.Observe` | src/rhpools/lp_gate.py:360-399 | A fresh observation is answered from the cache, another is fetched and stored, and an old one answers a failed fetch within the grace period; only the least recently used other wallet can be pushed out |
| `GateOracle.ObservationsSpaced` | src/rhpools/lp_gate.py:360-393 | As long as the cache is dropped only for a newer policy, observations under one version are equal or at least a cache lifetime apart |
| `GateOracle.RememberedGraceIsExact` | src/rhpools/lp_gate.py:529-565 | In such a history grace is granted if and only if some unrefuted balance that qualified under the policy version is at most the grace period old |
| `GateOracle.GraceCanEndAStepEarly` | src/rhpools/lp_gate.py:547-564 | A concrete history in which the wallet's observation is dropped from the cache four seconds after it was made, and grace ends before the full period |

## Left out

- USD prices, valuations, compensated sums and percentages: derived columns are one opaque value, and rollup sums are exact reals.
- Pricing as part of the `exact` flag of an effect, and the text labels of identity and settlement bases.
- Legacy core keys, bootstrap phases, identity hints, pending cost rows and claim refresh: they queue more work but decide nothing modelled here.
- The schema version check of a stored state, and pool metadata: both are fixed.
- Position keys as strings: an episode id is the pair of its position and its ordinal.
- Rowids after VACUUM, disk-space checks, timeouts and process pools: a build either fails keeping its replica, fails losing it, or dies.
- A page of the replica is read and stored in one step: between the two the replica is touched by nobody else.
- TickMath.SqrtRatioPositive: states only that ratios are positive; that they rise with the tick is a numeric fact about twenty constants and is taken as a hypothesis of `TickMath.TickIsGreatest`.
- Keccak and EIP-712: pool identifiers are the pool keys themselves, which no two pools share.
- Receipt status, transaction and block hashes of logs: one successful transaction is modelled, and its log indexes are distinct.
- The supply-based fee tier of an entitlement, and all locking: one call at a time, so nobody waits for the oracle request of another caller.
- RPC, Postgres, HTTP and WebSocket access, read endpoints, swap replay and fee estimates.
- OwnerRollup.Rollup.Build: takes the grouped query results as given by their meaning: the GROUP BY itself is done by the database.
- LedgerRuns.CleanMeansReplayed: is stated for runs whose publishes insert no stray effect row, because without that guard it is false; `LedgerMappings.MappedRunIsGuarded` derives the guard from the applies of a run. At most one projection per position is outstanding, as the projection lock ensures.
- ReplicaSync.RollupReplica.Synchronize: receives the successive snapshots it will read as a sequence, because a method cannot be interleaved with its writers.
