# Matching, PnL and quota logic: model and proofs

A Dafny model of the computations this repository's figures depend on, with proofs of what they keep over whole
runs. `dafny verify dfyconfig.toml` checks everything.

## How it is built

- **Intra order matching** (`src/intra_order_match.rs`). `MatchBook` says what each operation does to a book as a
  value; `MatchInvariants`, `MatchConservation` and `MatchReachable` prove what every reachable book satisfies;
  `MatchRun` proves that batching and delivery order do not matter; `MatchRestart` proves that the synchronisation
  job, which rebuilds the engine from its stored pending orders before every batch, reports and stores the same as
  one engine that is never restarted; `MatchHedges` proves that hedge timing, last fill and hedge counts do not
  depend on arrival order, and `MatchMetadata` that they survive restarts, with the exact case in which a stored order
  goes stale; `MatchStale` shows that the case arises. `MatchOrder` says the same in the fields of orders and events
  alone: which are accepted, in what order they apply, what a hedge meets and what an order shows. `IntraOrderMatch.MatchEngine` is the mutable engine, each method proved to be its
  counterpart on values.
- **FIFO PnL engines** (`src/fifo_pnl.rs`, `src/quantity_fifo_pnl.rs`). One set of lots serves both: the amount
  engine earns relative returns, the quantity engine price differences. `FifoLots` and `FifoEquivalence` prove the
  refinement of the notebook's list scan, which has its own arithmetic, and that splitting a fill cannot be observed;
  `FifoReturns` says what fills and marks earn on the units they concern; `FifoEngines` holds the two mutable engines
  with their cached totals.
- **Per-symbol PnL, sweep and sampling** (`src/pnl.rs`). `SymbolLedger` proves the cash identity, `SymbolStates` is
  the mutable state and `SymbolMoves` what each input moves in it; `PnlSweep` is the one-pass boundary sweep against
  replay, and `PnlSymbols` says what a replay does to each symbol and what a window's events add; `PnlWindows` proves the
  additivity of adjacent windows and `PnlSummary` its extension to all selected symbols, `PnlSampling` drawdown, resampling and extrema
  downsampling, `PnlDrawdown` the cleaned and the relative drawdown figures.
- **Combination FIFO** (`src/intra_analysis.rs`). `ComboFifo` proves conservation of carry, `ComboAccounting` the PnL
  decomposition, captured notionals and agreement of the series, `ComboQuantities` conservation of quantity and even
  release, `ComboReference` the fee rates under which the reference split adds up, `ComboSeries` the finished series
  of every field; `ComboShares` says who gets funding and interest, `ComboCash` what every match and every run earns in
  the prices of its orders, `ComboFigures` what series and captured notionals show, `ComboTimeline` how rows are merged;
  `ComboEngine` holds the merge loop over mutable lots, `ComboSampling` the thinning of a series.
- **REST quota** (`src/rest_dispatcher.rs`). `RestQuota` models the pool as atomic steps and proves the rate bound,
  the reported wait and the effect of blocks; `RestFairness` proves that the rotation shares equal requests evenly;
  `RestDispatch` is the retry loop of one request and `RestRetries` says when its retries use different IPs.
- **CSV import** (`scripts/import_bybit_mm_csv_history.py`) and **slug suggestions**
  (`frontend/src/analysisNav.ts`): `CsvImport` and `EditDistance`.
- `Prelude`, `MapSum` and `StableSorting` hold what several of these share.

Prices, amounts and PnL are `real`; epsilons and cleaning limits are the source's own constants or parameters.
Times are integers; 32-bit weights and 64-bit tick arithmetic saturate where the source saturates. Errors are
`Result` values, and a batch stops at the event that was rejected.

## What turned out to hold only under a condition

- The sliding rate bound holds exactly when the weight limit is below the largest 32-bit weight: at that limit the
  used weight saturates and every request passes (`RestQuota.BoundedIffBelowLargest`).
- A block keeps its IP out of use at every moment until it ends exactly when every later block of that IP that ends
  sooner is itself replaced before it runs out; a later, shorter block overrides a longer one
  (`RestQuota.BlockHoldsIff`, `RestQuota.LaterBlockCanShorten`).
- The comment at `src/rest_dispatcher.rs:185-187` says a retry uses a different source IP. For given answers
  this holds from every pool exactly when each retry comes before every earlier pause has run out, or the earlier
  attempt was told that its IP is over the limit and no window could have restarted since
  (`RestRetries.SpreadsIffKeptOut`); a pause of zero seconds is enough to break it (`RestDispatch.ZeroPauseRepeatsIp`).
- `downsample_extrema` meets its size bound exactly when the series is short enough already or the bound is at
  least 10; below 10 it returns everything (`PnlSampling.Downsample`).
- The reference-fee split of matched notional adds up over every run exactly when, for every symbol, neither the
  actual nor the reference fee rate is a rebate, or the two are equal; otherwise two orders suffice to break it
  (`ComboReference.SplitAddsUpIffSafe`).
- The import depends only on the set of rows, over a given set of trade ids, exactly when no trade id of the set is
  another one joined by a colon with something that could be an order id (`CsvImport.ConfluentIffNoLookalikes`).
- A stored order shows what a never-restarted engine shows of its hedges, unless a run hedged against it after an
  earlier run had stored it as finished (`MatchMetadata.StoredMetadataIff`). That happens: whatever the job has seen,
  the next accepted futures order that names a finished order makes it stale (`MatchStale.NextHedgeGoesStale`), and for
  every tolerance two batches are enough (`MatchStale.StoreGoesStale`).
- Loading the stored pending orders rebuilds the queues of the engine that stored them exactly when those queues are in
  key order (`MatchRestart.RebuildTracksIff`); they are while events arrive in key order (`MatchRestart.RunSorted`).
- Splitting a fill leaves the same lots exactly when the first part opens none (`FifoEquivalence.SplitShowsIff`).

## Model

| member | source | states |
|---|---|---|
| `MatchInvariants.NetLoopKeeps` | src/intra_order_match.rs:348-380 | Netting keeps the book invariant and stops only when the opposite queue is empty or the arriving order is used up |
| `MatchInvariants.AddMarginKeeps` | src/intra_order_match.rs:323-388 | A margin fill keeps conservation, queue/map agreement and one-sidedness |
| `MatchInvariants.HedgeLoopKeeps` | src/intra_order_match.rs:407-432 | Hedging keeps the same invariant and stops only when the fill or the queue is used up |
| `MatchConservation.AddMarginBalances` | src/intra_order_match.rs:348-380 | Netting adds the same total to buys and sells of a symbol |
| `MatchConservation.HedgeLoopAccounts` | src/intra_order_match.rs:407-432 | What a hedge gives up is what the orders gain as closed amount, within one clamp; close notional follows at the hedge price; nothing is netted |
| `MatchConservation.AddFuturesAccounts` | src/intra_order_match.rs:390-440 | The allocated amount is the closed amount within epsilon, allocated plus unallocated is the fill, and an amount is left only if the opposite queue is empty or the fill was dust |
| `MatchConservation.AnchorMatchedIff` | src/intra_order_match.rs:390-440 | A hedge is reported as anchored iff it closed some of the order it names, or had nothing to close |
| `MatchConservation.NetInOrder` | src/intra_order_match.rs:349-380 | Netting finishes a prefix of the opposite queue, oldest first, and touches at most one order more |
| `MatchConservation.HedgeInOrder` | src/intra_order_match.rs:409-432 | Hedging finishes a prefix of the queue, oldest first, and touches at most one order more |
| `MatchReachable.BatchesKeep` | src/intra_order_match.rs:233-243 | Every state reached by any batches, in any order and also after a rejected event, satisfies the invariant and balanced netting |
| `MatchReachable.ReachableConservation` | src/intra_order_match.rs:323-440 | fill - epsilon <= remaining + closed + netted <= fill in every reachable state, exactly fill while pending; per symbol, netted buys equal netted sells |
| `MatchReachable.ReachableQueues` | src/intra_order_match.rs:348-456 | An order is pending iff it stands once in the queue of its own symbol and side and in no other; one side per symbol is empty; Completed means nothing netted, Netted means nothing closed |
| `MatchRun.BatchingDoesNotMatter` | src/intra_order_match.rs:233-243 | In-order events give the same engine, hedge results and failure however they are cut into calls |
| `MatchRun.AppliedInSourceOrder` | src/intra_order_match.rs:151-163 | One call applies its events by opening or creation time, then source time, then margin before futures, then fkey or client order id; ties stay as they came |
| `MatchRun.DeliveryOrderDoesNotMatter` | src/intra_order_match.rs:151-163 | When no two events share a place, one call applies the one sequence of them in that order, however they were delivered |
| `MatchOrder.AcceptedIff` | src/intra_order_match.rs:323-404 | One call is accepted iff every margin order has a fill above the tolerance and a new fkey, and every futures order a non-negative amount and, when it counts, a fill time |
| `MatchOrder.HedgedWhenOpenedFirst` | src/intra_order_match.rs:151-163 | A fill and a hedge delivered together, in either order: the hedge closes the fill iff the fill opened first, and otherwise closes nothing |
| `MatchOrder.HedgesShown` | src/intra_order_match.rs:275-343 | After any batches an order shows the times of the futures order naming it that was created first, the latest fill time, and how many named it |
| `MatchOrder.LoadsIff` | src/intra_order_match.rs:185-229 | A snapshot loads iff the tolerance is not negative, every order has more than it left, and no fkey occurs twice |
| `MatchOrder.LoadedInOpeningOrder` | src/intra_order_match.rs:189-228 | A loaded engine holds exactly the snapshot, each queue by opening time, source time and fkey |
| `MatchRestart.RunTracks` | src/intra_order_match.rs:233-243 | Two engines that agree on pending orders and queues give the same hedge results and amounts on any later events |
| `MatchRestart.RunSorted` | src/intra_order_match.rs:348-432 | Queues stay in key order while events arrive in key order |
| `MatchRestart.RebuildTracks` | src/intra_order_match.rs:185-231 | Loading the stored pending orders, in whatever order the database returns them, rebuilds exactly the queues of the engine that stored them |
| `MatchRestart.RebuildTracksIff` | src/intra_order_match.rs:185-231 | For any book that keeps the invariant, loading its stored pending orders succeeds and rebuilds its queues iff those queues are in key order |
| `MatchRestart.SyncOnceTracks` | src/bin/sync_intra_orders.rs:158-166 | One run of the job reports the same hedges and stores the same amounts as the never-restarted engine |
| `MatchRestart.SyncMatchesOneShot` | src/bin/sync_intra_orders.rs:158-166 | Restart equivalence: over any in-order batches the job's hedge results and stored orders are those of one engine fed everything at once |
| `MatchRestart.FaithfulRunExists` | src/bin/sync_intra_orders.rs:158-166 | For all in-order batches there is a run of the job that reads back exactly what it stored, so the theorem's assumption can always be met |
| `MatchMetadata.LoadedAgrees` | src/intra_order_match.rs:208-226 | An order loaded with the timing it was stored with will be shown the same over all later events as by the engine that stored it |
| `MatchMetadata.SeededAgrees` | src/bin/sync_intra_orders.rs:845-894 | An order whose stored hedges were read back as a summary is known as if it had been watched from the start |
| `MatchMetadata.StoredMetadataIff` | src/bin/sync_intra_orders.rs:158-166 | Every stored order shows the timing, last fill and hedge count of the never-restarted engine iff no run hedged against it after it was stored as finished; a pending order always does |
| `MatchMetadata.HistoryExists` | src/bin/sync_intra_orders.rs:861-872 | Whatever hedges are stored, there is a summary for the job to read back |
| `MatchMetadata.JobRunExists` | src/bin/sync_intra_orders.rs:158-166 | For all valid in-order batches there is a history of the job that reads back its own pending orders and hedge summaries |
| `MatchStale.NextHedgeGoesStale` | src/bin/sync_intra_orders.rs:158-166 | Whatever the history, a finished order goes stale with the next accepted futures order that names it, and then shows other metadata than the never-restarted engine |
| `MatchStale.StoreGoesStale` | src/bin/sync_intra_orders.rs:158-166 | For every tolerance two batches lead to a store that shows other hedge metadata than the never-restarted engine |
| `MatchHedges.RunLogs` | src/intra_order_match.rs:275-321 | Every run keeps first timing, last fill and distinct hedge count equal to the least, greatest and number of what was seen |
| `MatchHedges.HedgesShownRegardlessOfArrival` | src/intra_order_match.rs:245-343 | Whether an order comes before, between or after its hedges, it shows the least hedge by sort key and the latest fill, and without seeded history the number of distinct hedge orders |
| `StableSorting.SortOfPermutation` | src/intra_order_match.rs:234-234 | Sorting forgets the input order when no two elements tie |
| `StableSorting.SortConcat` | src/intra_order_match.rs:234-234 | Sorting ordered batches one by one is sorting them all at once |
| `StableSorting.SortIsStable` | src/intra_order_match.rs:234-234 | Elements that tie keep their order |
| `IntraOrderMatch.MatchEngine.Load` | src/intra_order_match.rs:185-231 | Loads a snapshot or fails with the first offending order, exactly as the value model does |
| `IntraOrderMatch.MatchEngine.LoadOrder` | src/intra_order_match.rs:204-228 | Takes over one pending order with its hedge timing, last fill and count |
| `IntraOrderMatch.MatchEngine.ApplyAll` | src/intra_order_match.rs:233-243 | Puts a batch in order by the fields of its events and applies it; a rejected event leaves the engine where the batch stopped |
| `IntraOrderMatch.MatchEngine.ApplyMargin` | src/intra_order_match.rs:323-388 | Rejects without change, or leaves the book of the value model with known hedges taken over |
| `IntraOrderMatch.MatchEngine.ApplyFutures` | src/intra_order_match.rs:390-440 | Rejects without change, or records the hedge order and leaves the hedged book and result of the value model |
| `IntraOrderMatch.MatchEngine.HedgeQueue` | src/intra_order_match.rs:405-432 | The hedging loop over the live queue is the loop on values |
| `IntraOrderMatch.MatchEngine.RecordFirstHedgeTiming` | src/intra_order_match.rs:305-321 | Replaces the stored timing only by an earlier one and shows it on a known order |
| `IntraOrderMatch.MatchEngine.RecordHedgeOrder` | src/intra_order_match.rs:275-303 | Counts a hedge order once, keeps the latest fill and shows both on a known order |
| `IntraOrderMatch.MatchEngine.SeedHedgeHistory` | src/intra_order_match.rs:245-265 | Merges stored hedge history entry by entry |
| `FifoLots.FillKeepsOk` | src/fifo_pnl.rs:85-122 | Long and short lots stay positive and never coexist; the net amount moves by the signed fill |
| `FifoLots.PnlOfRest` | src/fifo_pnl.rs:182-205 | Closing a part and then another earns what closing both at once earns |
| `FifoLots.ValueOfRest` | src/fifo_pnl.rs:182-205 | Closing takes out of the value of the lots exactly what it realizes |
| `FifoLots.FillIsNeutralAtOwnPrice` | src/fifo_pnl.rs:72-141 | At its own price a fill only moves PnL from floating to realized, apart from its fee |
| `FifoLots.FillCash` | src/quantity_fifo_pnl.rs:31-63 | On quantities a fill earns the move of the mark away from its price on its whole signed quantity, whatever lots it closes |
| `FifoReturns.FillEarns` | src/fifo_pnl.rs:72-122 | A fill takes the oldest units of the other side, up to its amount, realizes what they are worth at its price less what they were opened at, with the sign of their side, and opens the rest |
| `FifoReturns.SnapshotEarns` | src/fifo_pnl.rs:122-163 | A snapshot shows what the open units are worth at their side's quote less what they were opened at, and the sums built on that |
| `FifoEquivalence.SameRun` | src/fifo_pnl.rs:72-122 | Lots no caller can tell apart stay indistinguishable under every later fill |
| `FifoEquivalence.SplitFill` | src/fifo_pnl.rs:72-122 | One fill, or two at the same price that add up, leave indistinguishable engines |
| `FifoEquivalence.SplitIsUnobservable` | src/fifo_pnl.rs:72-163 | After a split every later fill reports the same and every later snapshot is the same, in both engines |
| `FifoEquivalence.SplitShowsIff` | src/fifo_pnl.rs:96-110 | The lots after a split differ exactly when the first part already opened a lot of its own, on either side |
| `FifoEquivalence.FillRefinesScan` | src/fifo_pnl.rs:352-384 | One fill on the two queues does what scanning the notebook's mixed list does |
| `FifoEquivalence.RefinesListScan` | src/fifo_pnl.rs:315-393 | For every fill sequence realized PnL, floating PnL and net amount agree with the notebook's list scan and its own arithmetic |
| `FifoEngines.CloseFifo` | src/fifo_pnl.rs:182-205 | The closing loop leaves the remaining lots, realizes the PnL of the oldest units and reports what it could not match |
| `FifoEngines.FillTotals` | src/fifo_pnl.rs:91-110 | How a fill moves the long and short totals that the engine caches |
| `FifoEngines.FifoPnl.Fill` | src/fifo_pnl.rs:72-122 | Rejects bad input without change, or applies the fill with cached totals equal to the sums over lots, and realizes the return on the units it closed |
| `FifoEngines.FifoPnl.TakeSnapshot` | src/fifo_pnl.rs:126-163 | The snapshot read from cached totals is the one computed from the lots, with the return on the open units |
| `FifoEngines.QuantityFifoPnl.Fill` | src/quantity_fifo_pnl.rs:31-62 | The same for base quantities |
| `FifoEngines.QuantityFifoPnl.TakeSnapshot` | src/quantity_fifo_pnl.rs:64-88 | The quantity snapshot is computed from the lots |
| `SymbolLedger.TradeBooks` | src/pnl.rs:445-478 | A trade moves gross PnL at every mark by its signed quantity times the move, and leaves both snapshots fresh |
| `SymbolLedger.InterestBooks` | src/pnl.rs:480-537 | An interest quantity enters like a fill at the conversion price; a skipped one changes cost or count only |
| `SymbolLedger.PositionBooks` | src/pnl.rs:417-443 | A seeded position enters both venues like fills at its mark, apart from quantities too small to seed |
| `SymbolLedger.HistoryBooked` | src/pnl.rs:417-537 | Every accepted history keeps the ledger equal to cash accounting at every mark, and its cached snapshots fresh |
| `SymbolLedger.TotalIsCash` | src/pnl.rs:539-564 | Total PnL is sell cash minus buy cash plus net quantity at the mark, less fees, plus funding, less interest |
| `SymbolLedger.EventKeepsGaps` | src/pnl.rs:445-537 | Every event moves the reported quantities and the FIFOs by the same amounts |
| `SymbolLedger.QuantitiesAligned` | src/pnl.rs:417-537 | After at most one seed and any events, both reported quantities are what the FIFOs hold within f64 epsilon |
| `SymbolMoves.TradeMoves` | src/pnl.rs:445-478 | A trade fills the venue of its leg in the unit the source counts, moves that leg's quantity and the volume, and marks both venues; rejected iff price or counted amount is not positive |
| `SymbolMoves.InterestMoves` | src/pnl.rs:480-537 | Interest adds its cost; on quantities it also fills the spot venue at its own price, its cost a unit, or the last price, and without one it fills nothing |
| `SymbolMoves.SeedMoves` | src/pnl.rs:417-443 | A seed fills each venue with its own quantity at the mark; rejected iff the mark is not positive |
| `SymbolStates.SymbolState.Seed` | src/pnl.rs:417-443 | Seeds both venues and marks them, failing where the value model fails |
| `SymbolStates.SymbolState.Trade` | src/pnl.rs:445-478 | Applies a trade; a rejected one has still counted its unconverted fee |
| `SymbolStates.SymbolState.Interest` | src/pnl.rs:480-537 | Applies interest with its three conversion prices and the skipped case |
| `SymbolStates.SymbolState.Funding` | src/pnl.rs:954-966 | Adds a funding amount and nothing else |
| `PnlSweep.ReplayFails` | src/pnl.rs:742-753 | A replay that fails has failed for every longer history, with the same error |
| `PnlSymbols.ReplayBySymbol` | src/pnl.rs:954-966 | A replay takes every symbol through its own events, all of them and in order, and through no others |
| `PnlSymbols.ReplaysIff` | src/pnl.rs:954-966 | A replay succeeds iff every event names a known symbol and every symbol takes all of its events |
| `PnlSymbols.SelectedIsCash` | src/pnl.rs:1048-1060 | The selected total after a replay is the sum of the cash accounts of the selected symbols, each over its own history and events |
| `PnlSymbols.ReplayedIsCash` | src/pnl.rs:728-760 | What is recorded at a boundary is the sum of those accounts over the events up to it |
| `PnlSweep.RecordPassed` | src/pnl.rs:743-762 | Records the passed boundaries, each once and in order, with the total of the events at or before it |
| `PnlSweep.AdvanceTo` | src/pnl.rs:741-762 | Applies precisely the events before a limit and then records the boundaries in the gap |
| `PnlSweep.Sweep` | src/pnl.rs:741-883 | The one-pass sweep delivers the replayed states before and at the end of the window and every boundary once with its replayed total, or the replay's own error |
| `PnlSweep.RollingPnl` | src/pnl.rs:1095-1119 | The PnL of a trailing window from the recorded boundaries, none when no history is covered |
| `PnlSweep.RollingWindow` | src/pnl.rs:728-884 | End to end, a rolling window is the replayed total at the end less the replayed total at its start |
| `PnlWindows.Summarize` | src/pnl.rs:847-860 | A symbol summary over a window is the difference of replayed metrics |
| `PnlSymbols.WindowBrings` | src/pnl.rs:273-301 | Volume, funding, interest, fees and counts of a window are what the symbol's events inside it bring |
| `PnlSymbols.WindowTotalIsCash` | src/pnl.rs:273-301 | The total of a window is what its events added to the symbol's cash account |
| `PnlSymbols.MetricsAre` | src/pnl.rs:539-564 | Realized PnL and fees are those of both venues, floating PnL what their open units have earned at the last price, and the total is realized less fees plus floating plus funding less interest |
| `PnlWindows.AdjacentWindowsAdd` | src/pnl.rs:273-301 | Summaries over [a, m-1] and [m, b] add up to the summary over [a, b] |
| `PnlSummary.Aggregate` | src/pnl.rs:1132-1146 | The aggregation loop sums every field over the selected symbols |
| `PnlSummary.SelectedWindowsAdd` | src/pnl.rs:1132-1146 | Summaries over the selected symbols add up over adjacent windows: counts exactly, amounts within 3e-12 a symbol |
| `PnlSampling.PushOrReplace` | src/pnl.rs:1156-1164 | Keeps the series strictly increasing in time, replacing a last point of the same time |
| `PnlSampling.Drawdown` | src/pnl.rs:1075-1089 | Running-peak drawdown before cleaning is the greatest decline over all ordered pairs; the current one the greatest decline to the last point |
| `PnlDrawdown.MaxRatio` | src/pnl.rs:1075-1088 | The relative drawdown is the largest decline from a running peak over its net asset value |
| `PnlDrawdown.RatioBoundsPairs` | src/pnl.rs:1075-1088 | It bounds the relative decline between any two points while the later net asset value is not negative |
| `PnlDrawdown.DrawdownFigures` | src/pnl.rs:1069-1129 | All four drawdown figures, cleaned, with their missing cases |
| `PnlSampling.TicksAre` | src/pnl.rs:1190-1205 | The ticks are the start, the end and exactly the interval multiples strictly between, strictly increasing |
| `PnlSampling.Resample` | src/pnl.rs:1166-1207 | Every tick holds the last source value at or before it (the first value before any) |
| `PnlSampling.Extrema` | src/pnl.rs:1226-1244 | The points kept of a bucket are at most eight, in time order, and span all four measures |
| `PnlSampling.Downsample` | src/pnl.rs:1209-1249 | An ordered subsequence keeping both ends and the range of all four measures; the size bound holds iff the series is short or the bound is at least ten |
| `ComboFifo.PoppedReleasesAll` | src/intra_analysis.rs:969-984 | A lot is popped iff the match uses it up, and then everything it held has been released |
| `ComboFifo.CloseLoopConserves` | src/intra_analysis.rs:964-1173 | Closing moves carry from lots to matches within two cleanings a match |
| `ComboFifo.AllocateFundingAdds` | src/intra_analysis.rs:1493-1508 | Funding spread by futures notional adds exactly the accepted amount to the open lots |
| `ComboFifo.AllocateInterestAdds` | src/intra_analysis.rs:1510-1558 | Interest spread by spot notional adds exactly the accepted cost, over one symbol or over all |
| `ComboShares.FundingByNotional` | src/intra_analysis.rs:1493-1508 | Any two open lots of the symbol get funding as their quantity times futures price; nothing else changes |
| `ComboShares.SymbolInterestByNotional` | src/intra_analysis.rs:1520-1537 | Interest of a symbol is spread over its reverse lots as quantity times spot price; nothing else changes |
| `ComboShares.SharedInterestByNotional` | src/intra_analysis.rs:1538-1557 | Interest without a symbol is spread over the positive lots of all symbols as quantity times spot price |
| `ComboFifo.CarryConserved` | src/intra_analysis.rs:930-1191 | Over any interleaving of orders, funding and interest, accepted carry is recorded plus held carry within 2e-9 a match |
| `ComboQuantities.CloseLoopOldestFirst` | src/intra_analysis.rs:965-1016 | An order's matches go through the opposite lots from the oldest on, one each |
| `ComboQuantities.CloseLoopQuantities` | src/intra_analysis.rs:964-1190 | Closing stops only when the order or the lots are used up; matched quantity is what the order and the lots gave, up to residues of 1e-10 |
| `ComboQuantities.RunKeepsOpen` | src/intra_analysis.rs:1169-1190 | No run leaves an open lot with a quantity that counts as nothing |
| `ComboQuantities.ReleaseIsProportional` | src/intra_analysis.rs:973-984 | A partial match leaves the same carry per unit behind |
| `ComboQuantities.ReleaseInParts` | src/intra_analysis.rs:973-984 | Releasing in two matches gives what one match of both quantities gives |
| `ComboAccounting.RunDecomposes` | src/intra_analysis.rs:960-1001 | In every run each lot stands in the queue of its direction and every closed match decomposes exactly |
| `ComboCash.CloseLoopCloses` | src/intra_analysis.rs:964-1016 | An order closes the opposite lots from the oldest on, each at what its two legs earned between the two orders |
| `ComboCash.RunMatches` | src/intra_analysis.rs:930-1050 | In every run each match was made by one order against an earlier one of its symbol and the other direction, and its PnL, notional, fees and market part are what their prices say |
| `ComboCash.RunIsCash` | src/intra_analysis.rs:930-1191 | Over any run, at any mark, recorded PnL and open lots add up to what the legs of the orders have earned, up to two dusts a match and one an order |
| `ComboAccounting.CapturedAddsUp` | src/intra_analysis.rs:461-488 | Above-fee, below-fee and uncaptured notionals add up to matched notional |
| `ComboFigures.BucketsHold` | src/intra_analysis.rs:461-488 | Each bucket holds the notional of the matches left with a profit after fees, of those that had one only before fees, or of the rest |
| `ComboReference.NonNegativeFeesAddUp` | src/intra_analysis.rs:461-488 | Matches without rebates split their notional by the reference fee without a remainder |
| `ComboReference.UnsafeRatesMiss` | src/intra_analysis.rs:930-1050 | Different rates of which one is a rebate: two orders, run through the calculation, make the reference split miss |
| `ComboReference.SplitAddsUpIffSafe` | src/intra_analysis.rs:461-488 | Every run of valid orders adds up iff, for every symbol, neither rate is a rebate or both are equal |
| `ComboAccounting.PushAgrees` | src/intra_analysis.rs:1048-1157 | One match moves portfolio and symbol series together and leaves the past alone |
| `ComboAccounting.SeriesAgree` | src/intra_analysis.rs:1048-1157 | At every instant of the window the portfolio series is the cleaned sum of the forward-filled symbol series, in every additive measure |
| `ComboSeries.EveryFieldAgrees` | src/intra_analysis.rs:1048-1157 | The finished portfolio series is the cleaned sum of the finished symbol series in every field at every instant |
| `ComboSeries.FinishedAgrees` | src/intra_analysis.rs:1560-1577 | The points appended at the end of the window change no value |
| `ComboFigures.FinishedShow` | src/intra_analysis.rs:1048-1157 | At every instant every finished series shows, field by field, what the matches closed by then count for |
| `ComboAccounting.RunCloses` | src/intra_analysis.rs:930-1018 | Matches close in order when orders come in order |
| `ComboEngine.Calculation.Process` | src/intra_analysis.rs:956-1190 | The closing loop over mutable lots is the order step on values; its matches close the opposite lots in turn at what their legs earned |
| `ComboEngine.Calculation.Fund` | src/intra_analysis.rs:1493-1508 | The funding allocation loop is its value step, splits the amount as futures notional, and reports whether it was taken |
| `ComboEngine.Calculation.Charge` | src/intra_analysis.rs:1510-1558 | The interest allocation loops are their value step, whatever order the symbols are visited in |
| `ComboEngine.Calculation.Merge` | src/intra_analysis.rs:930-1206 | The three-index merge leaves the state of running the timeline: funding, then interest, up to each order's time, then the order |
| `ComboTimeline.TimelineConsists` | src/intra_analysis.rs:930-1206 | The merge consists of exactly the given rows, each kind in its own order |
| `ComboTimeline.ChargesMeetOrders` | src/intra_analysis.rs:930-957 | Before each order stand the earlier orders and exactly the funding and interest rows at or before its time |
| `ComboEngine.Analyse` | src/intra_analysis.rs:884-1255 | End to end, merged events give matches made from the orders and, for every field asked for, finished series that agree at every instant and show what was closed by then |
| `ComboSampling.Downsample` | src/intra_analysis.rs:1579-1598 | A thinned series keeps exactly the allowed number of points, in order, both ends among them |
| `RestQuota.ChosenIsLeastUsed` | src/rest_dispatcher.rs:246-256 | Some client is chosen whenever one is available, and none available is used less |
| `RestFairness.HeadIsChosen` | src/rest_dispatcher.rs:246-256 | Ties go to the first client in rotation order |
| `RestFairness.RoundRobin` | src/rest_dispatcher.rs:239-282 | Equal requests in the first window are granted on the IPs strictly in turn as long as there is room |
| `RestQuota.GrantedIff` | src/rest_dispatcher.rs:239-282 | A reservation succeeds iff some client is available after refreshing |
| `RestQuota.WaitIsExact` | src/rest_dispatcher.rs:258-276 | With no step in between, the same reservation fails at every instant before the reported wait has passed and succeeds from then on |
| `RestQuota.RunKeepsQuota` | src/rest_dispatcher.rs:127-305 | Every run keeps, per IP, the current window and the window length before it each within the limit |
| `RestQuota.SlidingRateBound` | src/rest_dispatcher.rs:239-282 | In any interval of one window length an IP is granted at most twice the limit, and at most the limit since its current window began |
| `RestQuota.BoundedIffBelowLargest` | src/rest_dispatcher.rs:253-254 | All runs of a configuration meet that bound iff its limit is below the largest 32-bit weight |
| `RestQuota.NothingGrantedWhileBlocked` | src/rest_dispatcher.rs:250-256 | Whatever happened before, nothing is granted on an IP before its latest block has run out |
| `RestQuota.BlockHoldsIff` | src/rest_dispatcher.rs:284-287 | A block keeps its IP out of use at every moment until it ends iff every later block of the IP that ends sooner is replaced before it runs out |
| `RestQuota.NoGrantInsideBlock` | src/rest_dispatcher.rs:239-287 | In any run, with any callers in between, no reservation is granted inside a block that no later block cuts short |
| `RestQuota.LaterBlockCanShorten` | src/rest_dispatcher.rs:284-287 | A shorter later block frees an IP before an earlier block would have ended |
| `RestQuota.GrantsRespectEveryBlock` | src/rest_dispatcher.rs:250-287 | When later blocks never end sooner, no grant falls inside any block |
| `RestQuota.Dispatcher.ReserveClient` | src/rest_dispatcher.rs:239-282 | Refreshes, chooses, charges and rotates as the value step, or reports the wait |
| `RestQuota.Dispatcher.BlockClient` | src/rest_dispatcher.rs:284-287 | Blocks one client and touches nothing else |
| `RestQuota.Dispatcher.UpdateObservedWeight` | src/rest_dispatcher.rs:289-305 | Raises one client's used weight to the observed one and never lowers it |
| `RestDispatch.DispatchEnds` | src/rest_dispatcher.rs:188-237 | Only 429 and 418 answers are retried; a transport failure ends at once; it gives up exactly at the configured number of attempts; an overweight request is refused untouched |
| `RestDispatch.RetriesUseOtherIps` | src/rest_dispatcher.rs:185-237 | No attempt uses an IP that an earlier attempt was rate limited on while that block runs |
| `RestDispatch.ZeroPauseRepeatsIp` | src/rest_dispatcher.rs:218-225 | A pause of zero lets the retry use the IP that was just rate limited |
| `RestDispatch.AnswerBlocks` | src/rest_dispatcher.rs:211-227 | A 429 or 418 answer blocks its IP for as long as it asks, else for the 429 cooldown or the 418 back-off, from when it came in; others block nothing |
| `RestRetries.LongPausesSuffice` | src/rest_dispatcher.rs:185-237 | Pauses that outlast all later attempts keep the IPs of a dispatch distinct, from every pool and for every weight |
| `RestRetries.ShortPauseRepeats` | src/rest_dispatcher.rs:197-233 | A pause that has run out by a later attempt makes a new dispatcher with as many IPs as earlier attempts use one twice, unless its IP was reported over the limit in a window that still runs |
| `RestRetries.KeptOutSpreads` | src/rest_dispatcher.rs:185-305 | Retries that come before earlier pauses have run out, or while the IP is over the limit in any window it can have, use different IPs from every pool |
| `RestRetries.SpreadsIffKeptOut` | src/rest_dispatcher.rs:185-305 | Retries use different IPs from every pool iff each is kept off every earlier IP in one of those two ways |
| `RestRetries.SpreadsIffPausesOutlast` | src/rest_dispatcher.rs:185-237 | When no answer reports a weight over the limit, that is so iff each retry comes before all earlier pauses have run out |
| `RestDispatch.SendOnce` | src/rest_dispatcher.rs:197-233 | One round of the retry loop on the live pool is the value step |
| `RestDispatch.Send` | src/rest_dispatcher.rs:188-237 | The retry loop on the live pool has the outcome and leaves the pool of the value model |
| `CsvImport.LoadRows` | scripts/import_bybit_mm_csv_history.py:160-215 | The import loop over its dictionary and set is the fold on values, with the same error |
| `CsvImport.LoadIsCanonical` | scripts/import_bybit_mm_csv_history.py:182-215 | While no trade id is the compound id of another row, loading succeeds iff no two different rows need the same compound id, and then holds exactly the set of rows in final form |
| `CsvImport.ImportIsConfluent` | scripts/import_bybit_mm_csv_history.py:160-219 | Then success and final rows depend only on the set of in-window rows, not on order or repetition |
| `CsvImport.ColonFreeConflicts` | scripts/import_bybit_mm_csv_history.py:182-215 | Without colons in trade ids that is always so, and a conflict is two different rows of one trade id and one order id |
| `CsvImport.ColonFreeImport` | scripts/import_bybit_mm_csv_history.py:160-215 | Without colons: fails iff two different rows inside the window have the same market, symbol, trade id and order id, else holds each under its trade id, or with its order id when the trade has other rows |
| `CsvImport.ConfluentIffNoLookalikes` | scripts/import_bybit_mm_csv_history.py:111-219 | Over a set of trade ids every import is confluent iff no trade id is another one joined with a possible order id |
| `CsvImport.EveryRowSurvivesOnce` | scripts/import_bybit_mm_csv_history.py:182-215 | On success every distinct row survives exactly once, as itself or under its compound id |
| `CsvImport.LookalikesMatter` | scripts/import_bybit_mm_csv_history.py:111-215 | Any such lookalike gives three rows that pass normalisation, load in one order and fail in another |
| `EditDistance.Levenshtein` | frontend/src/analysisNav.ts:48-68 | The table's last cell is the recurrence on prefixes |
| `EditDistance.DistanceIsShortestScript` | frontend/src/analysisNav.ts:48-68 | The distance is the length of the shortest script of insertions, deletions and substitutions at any positions |
| `EditDistance.Symmetric` | frontend/src/analysisNav.ts:48-68 | The distance is symmetric |
| `EditDistance.ZeroIffEqual` | frontend/src/analysisNav.ts:48-68 | The distance is zero only between equal strings |
| `EditDistance.Triangle` | frontend/src/analysisNav.ts:48-68 | The distance obeys the triangle inequality |
| `EditDistance.SlugKeeps` | frontend/src/analysisNav.ts:44-46 | Small letters and digits stay, capital ASCII letters become small, everything else goes |
| `EditDistance.Suggest` | frontend/src/analysisNav.ts:28-42 | The suggestion is the first candidate at the least distance among those at distance one or two, and none iff there is none or the slug is known or empty |

## Left out

- Floating-point rounding, NaN, infinity and the finiteness checks: amounts are reals.
- Order fields that matching only passes through (source times of creation, prices of the opening, market snapshots, ranges, lengths) and the getters derived from them.
- `MatchHedges.HedgesShownRegardlessOfArrival`: starts from an empty engine with seeded history; engines loaded from stored orders are the subject of `MatchMetadata`.
- `MatchRestart.SyncOnceTracks`: compares amounts and states; hedge timing, last fill and hedge count of the same runs are compared in `MatchMetadata`.
- `MatchRestart.SyncMatchesOneShot`: likewise; `MatchMetadata.StoredMetadataIff` covers the metadata, for client order ids that are unique and source timestamps above the least 64-bit integer.
- `PnlSummary.Aggregate`: the open amount and the return on volume of the same lines are not summed.
- `PnlSampling.Drawdown`: the absolute drawdown before cleaning; the ratio of the same loop and the cleaned figures are in `PnlDrawdown`.
- `ComboEngine.Analyse`: the series are written after the merge, and open lots, recent matches and summaries are not produced.
- `RestDispatch.RetriesUseOtherIps`: one dispatch with no other caller between its attempts; with other callers `RestQuota.NoGrantInsideBlock` applies.
- `RestRetries.SpreadsIffKeptOut`: likewise, and no window of the pool began after the first attempt.
- `EditDistance.Suggest`: slugs are lower-cased for ASCII letters only.
- Loading from and writing to PostgreSQL, the release watermark and the lifecycle rows behind the matching events: the snapshot read back is an assumption (`Faithful`) on each run of the job, one that `MatchRestart.FaithfulRunExists` and, with the hedge summaries, `MatchMetadata.JobRunExists` show can always be met.
- `SymbolLedger.TotalIsCash`: quantity-based sources only; amount-based lots have no cash identity, for them `FifoLots.FillIsNeutralAtOwnPrice` is what holds.
- SymbolState keeps its two FIFOs as values rather than as references to engine objects.
- Positions and exposure in `Metrics`, the ratio, annualised and label fields.
- The points that the PnL sweep pushes per event, and positions in the summary over all selected symbols.
- Sorting and validation of PnL events and of combination orders, funding and interest: they come in sorted by time.
- The list of recent matches, the open-lot summary, the counts of allocated rows and the per-direction scoreboard ratios.
- The dispatcher reads its clock just before taking the lock; the model reads it inside the step and assumes reads do not go back. All source IPs start their first window at one instant.
- `RestDispatch.Send`: one request with no other caller between its attempts; for interleaved callers `RestQuota.NoGrantInsideBlock` says when a retry cannot be granted on the blocked IP.
- HTTP itself: the answers of the network are inputs of the retry loop.
- Parsing of decimal CSV fields (the trimming and the checks of ids, sides and timestamps are part of the model), the counters printed at the end and the final sort of the imported rows.
- Listeners, servers, strategy configuration, monitoring, authentication and chart pages.
