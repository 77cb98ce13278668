# Verified model of the futures trading bot

A Dafny 4.11 model of the bot's stateful pieces, with proofs about whole runs. `dafny verify dfyconfig.toml`
checks everything.

Prices, quantities, balances and clock seconds are `real`, candle indices and candle times are `int`, NaN is `None`. Where
the program changes state in place the model has a class or a loop whose contract equates the new state
with a function of the old one; the laws are proved about that function over every sequence of events.
Threads are modelled as sequences of atomic steps, one per critical section or exchange action, so a law
about every sequence is a law about every interleaving.

| file | what it models |
|---|---|
| `EntryGate`, `Positions` | the entry protocol: callbacks and follow-up threads, stale position cache, lock, live re-check, order |
| `OrderMonitor` | supervision of a live position and the profit it reports |
| `LimitFallback`, `Rounding` | limit-then-market entry and exchange rounding |
| `EntrySizing` | margin, leverage step-down, quantity, liquidation guard |
| `LossLadder` | the three-level loss-scaling ladder |
| `RiskThrottle` | cooldown, losing streak, daily drawdown, restart |
| `KillSwitches`, `KillSwitchLaws` | operational suspensions and the entry gate they control |
| `CandleSeries`, `MarketFeed`, `IndicatorCache`, `CachePipeline` | bounded candle series, snapshot cache, indicator cache, and both caches together |
| `RateLimiter`, `KlinePaging` | the downloader's weight budget and backward paging |
| `ExitScan`, `Simulation`, `SimulationLaws`, `FrameColumns` | the backtest simulator and the indicator columns it runs on |
| `Signals`, `BosEngine`, `OtherEngines`, `PullbackEngine` | the four signal engines and their dispatch |
| `Indicators` | EMA, RSI and ATR recurrences |

## Where the code falls short of what it is for

Each is a lemma about the code as it is, beside the exact condition under which the code does what it promises.

- A polled suspension does not end (`PolledSuspensionNeverEnds`). README.md of the repository calls
  suspensions time-based and reversible, but every heartbeat and gate check renews a tripped counter's
  deadline; with the defaults (heartbeat 60 s, suspension 900 s) it never elapses. `EvaluationRenews` says
  exactly which event lifts one.
- Polling the default three rows appends rows that are already stored (`OrderSurvivesIffInOrder`). That is
  harmless to the fingerprint while every poll brings a newer candle (`CachedIndicatorsAreExact`); a poll without
  one keeps the fingerprint of a full series (`RepeatedPageKeepsFingerprint`), and the indicator cache serves
  another frame's indicators (`RepeatedPageHitsOldEntry`). `FingerprintFooledIff` and `WrongHitIff` say exactly
  which pages do it, on any stored series.
- An update between the two critical sections of `get_dataframe` is lost (`UpdateInTheGapIsLost`); that is
  the only way to go stale (`StaleOnlyByLateStore`).
- A fill after its attempt was given up (cancel failed, or polling raised) can take the account over
  `max_positions`, by any number of positions (`LateFillBoundIsTight`). It can happen exactly when the orders
  left resting would not all fit (`ExchangeCanExceedIff`).
- A drawdown pause that was saved outlives its day after a restart (`DrawdownPauseOutlivesItsDay`,
  `FirstCheckAfterRestart`), while a loss that was not yet checked is forgotten (`RestartForgetsDayLoss`,
  `RestartLiftsDrawdown`).
- Fills between the last poll and the cancel are not in the returned quantity (`GapFillsAreMissed`); a whole
  order can be bought twice (`WholeOrderBoughtTwice`). An exception can leave a position behind on each way
  to raise, for every order of a positive quantity and for no other (`RaisedIsSafeIff`).
- A TP or SL result for an algo order does not mean that it was executed (`TpMeansExecutedIffPlain`,
  `SlMeansExecutedIffPlain`), and an executed order is reported only while the other one still works
  (`ExecutedTakeProfit`, `ExecutedStop`, `DeadPairIsNeverReported`).
- A scaling fill can go unrecorded, exactly when `FillIsRecordedIff` says so, and then repeat without bound
  (`UnrecordedFillsAreUnbounded`, with concrete markets in `SlippedFillsGoUnrecorded` and
  `UnprotectedFillsGoUnrecorded`); only completed levels are bounded by seven margins. A close that follows
  leaves the unrecorded fills open (`AcceptedCloseLeaves`).
- The 60-second budget does not hold for every window with both ends included
  (`ClosedWindowHoldsTwiceTheBudget`); `ClosedWindowsWithinIff` says when it does.

## Model

| member | source | states |
|---|---|---|
| `Positions.CountActivePositions` | services/position_service.py:117-130 | The count and the set of distinct symbols with a non-zero readable amount; unnamed and unreadable rows are skipped, two rows of one symbol count once |
| `Positions.ActiveIff` | services/position_service.py:117-130 | A symbol is active if and only if it is not empty and some row names it with a readable amount other than zero, long or short |
| `EntryGate.CandidatesFitFreeSlots` | services/entry_service.py:114-170 | A callback goes on exactly when risk and operations allow it, both cache reads show a free slot and some signal is for a symbol not seen open; it then has the smaller of the free slots and those signals as candidates, and the m-th one is a signal with exactly m such signals ranked before it |
| `EntryGate.EvaluateChoosesBest` | services/entry_service.py:143-170 | A thread that goes on has chosen the best-ranked signal that is not seen open, and knows of more exactly when a second such signal and a second free slot are there |
| `EntryGate.ResolvePassesIff` | services/entry_service.py:172-184 | A callback passes the dedupe if and only if there is an anchor candle other than the one last evaluated, and then remembers it; otherwise it ends and nothing is remembered |
| `EntryGate.RecheckClearsIff` | services/entry_service.py:889-915 | The re-check lets an order through if and only if the exchange answers with a free slot and without the symbol |
| `EntryGate.FollowUpSeesSameCandle` | services/entry_service.py:309-324 | An entry with candidates left starts a follow-up, which gets past the dedupe for the very candle just evaluated |
| `EntryGate.CleanUpClears` | services/entry_service.py:674-687 | A clean-up that works leaves no old order of the symbol resting |
| `EntryGate.AttemptGoesOnIff` | services/entry_service.py:643-743 | A chosen candidate goes on exactly with a valid plan and a free lock, keeps the symbol it chose, and ends entered exactly after a fill; the lock is its own in between |
| `EntryGate.OrderLeaves` | services/entry_service.py:917-951 | After an order its symbol is open exactly when it was or the order filled, whole or in part, and an order of it rests exactly when one did or could not be removed |
| `EntryGate.ExchangeMoves` | services/entry_service.py:944-951 | A closing takes a symbol out of the open ones, a late fill moves it there from the resting ones, and nothing else changes |
| `EntryGate.StepKeepsLock` | services/entry_service.py:645-743 | The entry lock has exactly one holder after every step, and only its holder is past the lock |
| `EntryGate.StepKeepsBound` | services/entry_service.py:889-915 | The live re-check leaves a free slot and an unopened symbol for the order behind it, whatever the other threads and the exchange do meanwhile |
| `EntryGate.RunKeepsInvariant` | services/entry_service.py:625-743 | Lock, bound and history invariants hold after every interleaving of any number of threads |
| `EntryGate.PositionBound` | services/entry_service.py:643-743 | In every interleaving open positions stay within max(initial count, max_positions) plus the number of late fills among the steps |
| `EntryGate.NeverEntersOpenSymbol` | services/entry_service.py:912-914 | Without late fills an order is only ever sent or in flight for a symbol that is not open, with a slot free |
| `EntryGate.PassesNeedFollowUps` | services/entry_service.py:172-184 | While the anchor candle stays the same, each pass of the dedupe beyond the first needs a follow-up that reset it |
| `EntryGate.FollowUpsTerminate` | services/entry_service.py:309-324 | However stale the cache, in every run: at most max_positions - open follow-ups plus one per position closed and one per late fill, and at most one evaluation more than follow-ups, so a follow-up chain ends |
| `EntryGate.ExchangeCanExceedIff` | services/entry_service.py:944-951 | In every state, closings, late fills and dropped orders alone can take the account over any limit if and only if open symbols and symbols with a resting order together exceed it |
| `EntryGate.LateFillBoundIsTight` | services/entry_service.py:944-951 | For every max_positions and every number of late fills there is a run that reaches the bound of `PositionBound` |
| `RateLimiting.RateLimiter.PollOnce` | backtest/backtest.py:177-184 | One locked poll: keeps the grants younger than 60 s and grants exactly when they leave room for the weight |
| `RateLimiting.RateLimiter.Acquire` | backtest/backtest.py:175-185 | Polls until the first poll that grants, and returns at that poll only |
| `RateLimiting.WeightTable` | backtest/backtest.py:166-173 | Weights 1, 2, 5 and 10, each at both ends of its range of limits, and never less for more rows |
| `RateLimiting.ListIsLiveHistory` | backtest/backtest.py:180-183 | Discarding loses nothing: after any polls the list is the live part of all grants ever made |
| `RateLimiting.EveryWindowWithinBudget` | backtest/backtest.py:157-185 | Over any run of concurrent calls the weight granted in every half-open 60-second window is within the budget |
| `RateLimiting.ClosedWindowsWithinIff` | backtest/backtest.py:180-183 | Every 60-second window with both ends included is within the budget if and only if every granted poll also fits when grants exactly 60 seconds old still count |
| `RateLimiting.ClosedWindowHoldsTwiceTheBudget` | backtest/backtest.py:166-183 | For every budget and every weight acquire can ask for, as many requests as fit the budget are granted at one instant and again 60 seconds later, all within one closed window |
| `RateLimiting.GrantableIffWeightFits` | backtest/backtest.py:182-185 | A waiting call can still be granted if and only if its weight fits the budget at all |
| `KlinePaging.FetchPage` | backtest/backtest.py:386-402 | Up to four attempts: the answer, nothing when bans used them up, or an exception when the fourth failed |
| `KlinePaging.PageOutcomeIff` | backtest/backtest.py:386-402 | Four attempts: the page is got if and only if one of them is answered; without an answer the call raises exactly when the fourth failed and goes without the page when it was banned |
| `KlinePaging.PageBefore` | backtest/backtest.py:388-391 | A page requested before the first row held is the stretch of history directly in front of it |
| `KlinePaging.CollectPages` | backtest/backtest.py:379-425 | The loop terminates holding the newest rows in order, short only when a page gave no answer or history ended |
| `KlinePaging.CleanUpIsNoOp` | backtest/backtest.py:432 | De-duplication and sort change nothing on rows in strictly increasing order |
| `KlinePaging.FetchKlines` | backtest/backtest.py:367-432 | When every page is answered the frame is exactly what one unlimited request for limit candles returns; otherwise it is the newest answered part, in strictly increasing order, or an exception with its cause |
| `ExitScan.ScanExit` | backtest/backtest.py:664-707 | The exit is the specified one: first candle touching a level decides, the stop wins ties, TIMEOUT exactly when none touches, candles_held = exit - entry |
| `ExitScan.ExitIsUnique` | backtest/backtest.py:664-707 | That specification has one solution |
| `ExitScan.LongExit` | backtest/backtest.py:664-707 | A long in plain terms: strictly between its levels until the exit; a loss exactly when the exit candle's low reaches the stop, a win exactly when only its high reaches the target, else the fiftieth candle or the last |
| `ExitScan.ShortExit` | backtest/backtest.py:664-707 | The same for a short |
| `ExitScan.ResultsPay` | backtest/backtest.py:711-714 | With the levels in order a win has positive and a loss negative gross profit, on either side |
| `ExitScan.ExitFromIsExit` | backtest/backtest.py:671-707 | The recursive form of the scan meets the specification |
| `ExitScan.MirrorKeepsOutcome` | backtest/backtest.py:692-714 | Swapping the side and negating all prices keeps result, exit candle, holding time and gross profit |
| `Simulation.SearchSortedRight` | backtest/backtest.py:542 | The position splits the context into rows closed by the cutoff and rows closing later |
| `Simulation.AdvanceContext` | backtest/backtest.py:540-546 | The memoised slice is always the last window of all context rows closed by the candle |
| `Simulation.Evaluate` | backtest/backtest.py:549-600 | The long pass answers first, the short pass only when it is silent; every outcome raises exactly its own counter, and an open decision has a positive entry and at least the minimum score |
| `Simulation.OpenTrade` | backtest/backtest.py:661-741 | The recorded trade has the specified exit |
| `Simulation.Simulate` | backtest/backtest.py:537-745 | The trades are those of the recursive walk, and signals = trades + blocked sells + low scores + non-positive-price skips |
| `SimulationLaws.OpensIff` | backtest/backtest.py:538-600 | A candle opens a signal if and only if the long engine, or after its silence the short one, returns it on the rows up to and including that candle and the context closed by then, and it is no blocked short, scores at least one and has positive prices |
| `SimulationLaws.SimulationTradesIff` | backtest/backtest.py:532-743 | A candle of a whole simulation trades if and only if it lies behind the warm-up and before the last candle, its decision opens, and none of the nine candles before it traded |
| `SimulationLaws.TradesSeeTheirCandle` | backtest/backtest.py:538-580 | Whatever both engines guarantee between a signal and the data they are shown holds of every trade with the rows up to and including its own candle and the context closed by then |
| `SimulationLaws.TradesEnterAtTheirClose` | backtest/backtest.py:538-539 | With engines that enter at the last close they see, every trade enters at the close of its own candle |
| `SimulationLaws.TradesSeeWholeWindow` | backtest/backtest.py:538-539 | Every trade was decided on min(i + 1, evaluation window) rows |
| `SimulationLaws.NoLookAhead` | backtest/backtest.py:537-580 | Frames with columns that agree on everything known at the close of candle k give the same signal candles and signals up to k and the same outcome for every trade ended by k |
| `FrameColumns.ColumnsAreIndicators` | backtest/backtest.py:486-503 | Row i of the EMA, ATR and RSI columns computed over the whole frame is the indicator of the rows up to i |
| `FrameColumns.EnrichedRow` | backtest/backtest.py:486-503 | A row of the frame carries its candle and, column by column, the indicators of the rows up to it and the rolling means of ATR and volume |
| `FrameColumns.RollingMeanWithin` | backtest/backtest.py:490-491 | A rolling mean is there exactly from the window's last row on, and within the range of the samples in its window |
| `FrameColumns.EnrichedPrefix` | backtest/backtest.py:486-503 | Adding all indicator columns and cutting the frame is cutting it and adding them, so a candle depends on no later row |
| `FrameColumns.EnrichedContextPrefix` | backtest/backtest.py:525-530 | The same for the context and its two trend columns |
| `FrameColumns.NoLookAheadOnRows` | backtest/backtest.py:473-580 | No look-ahead from the downloaded rows on: rows after k, and context not closed by then, change neither a decision up to k nor a trade ended by k, although the columns are computed beforehand |
| `SimulationLaws.NothingOpensBefore` | backtest/backtest.py:666-671 | Every trade exits after its signal candle, within 50 candles and inside the frame |
| `SimulationLaws.AtMostFiveOverlap` | backtest/backtest.py:142-143 | At most ceil(50 / 10) = 5 trades run into any candle |
| `SimulationLaws.TradeProfit` | backtest/backtest.py:711-715 | Profit is notional times relative move less two commissions on the notional, whatever the entry price |
| `CandleSeries.LengthBounded` | data_stream.py:75-85 | No poll takes the series over its maxlen |
| `CandleSeries.UntouchedIsSame` | data_stream.py:210-218 | A poll that marks nothing dirty changes nothing |
| `CandleSeries.LatePageIsAppended` | data_stream.py:210-218 | A page that starts behind the last row is appended whole, dropping as many of the oldest rows as needed |
| `CandleSeries.OrderSurvivesIffInOrder` | data_stream.py:205-218 | The stored order survives a page if and only if the page starts no earlier than the last stored row |
| `CandleSeries.FingerprintIsFaithful` | services/signal_service.py:80-90 | Along a run whose pages come in order or end at a newer candle equal fingerprints mean equal frames, even after the deque has slid and whatever rows were stored twice |
| `CandleSeries.FingerprintFooledIff` | services/signal_service.py:80-90 | For any stored series, in order or not, one poll changes the frame under an unchanged fingerprint if and only if the page starts before the last stored row, the series is full, both end with the same row, and the series does not already repeat with the page's period |
| `CandleSeries.RepeatedPageKeepsFingerprint` | data_stream.py:197-218 | Polling a full series again for its last rows (two or more) without a new candle is such a poll, for every such series and page, and the rows are stored twice |
| `MarketFeed.MarketDataStream.LoadInitial` | data_stream.py:152-159 | The series becomes the newest maxlen rows and is dirty; an empty answer changes nothing |
| `MarketFeed.MarketDataStream.FetchAndUpdate` | data_stream.py:205-218 | The series absorbs the page row by row and is marked dirty exactly when a row changed it |
| `MarketFeed.MarketDataStream.ReadBegin` | data_stream.py:350-354 | First section: a clean snapshot is the answer, else a copy of the series is taken |
| `MarketFeed.MarketDataStream.ReadEnd` | data_stream.py:356-368 | Second section: the copy is stored as clean, or the cache emptied when it is empty |
| `MarketFeed.ReadInPlainTerms` | data_stream.py:350-368 | A read is answered at once if and only if a clean snapshot is there; otherwise it answers with the copy it took |
| `MarketFeed.ReadAgainIsQuick` | data_stream.py:350-368 | After an undisturbed read of a series with rows the next read is answered at once with the same frame |
| `MarketFeed.EveryAnswerIsAPastSeries` | data_stream.py:346-368 | Under any interleaving every frame handed out is a value the series really had, and the length bound holds |
| `MarketFeed.StaleOnlyByLateStore` | data_stream.py:365-367 | The cache goes stale if and only if a reader stores a copy the series has left behind |
| `MarketFeed.QuietAnswersAreCurrent` | data_stream.py:350-368 | When no update falls between a reader's sections every answer is the current series |
| `MarketFeed.UpdateInTheGapIsLost` | data_stream.py:350-367 | Whenever an update does fall in the gap, the next reader gets the old frame |
| `IndicatorCache.Cache.TrimLocked` | services/signal_service.py:93-98 | The table becomes the trimmed one of `TrimKeeps`: within the capacity, the newest keys kept with their entries and order |
| `IndicatorCache.TrimKeeps` | services/signal_service.py:93-98 | Trimming drops the keys inserted first, as many as exceed the capacity, and keeps the other entries |
| `IndicatorCache.LastStoreIsFound` | services/signal_service.py:163-166 | Whatever the table held, the entry stored last is found, so trimming never evicts it |
| `IndicatorCache.Cache.CachedWithIndicators` | services/signal_service.py:138-166 | A fingerprint hit returns the stored value, a miss computes, stores and trims, an empty frame passes through |
| `IndicatorCache.EntriesAreComputed` | services/signal_service.py:163-166 | Whatever threads interleave, the table is bounded and every entry holds the indicators of some frame stored for its key under that frame's fingerprint |
| `IndicatorCache.HitsAreExact` | services/signal_service.py:147-152 | While polls come in order or bring a newer candle a hit equals computing the indicators of the caller's own frame |
| `IndicatorCache.WrongHitIff` | services/signal_service.py:147-152 | Whatever cache and series hold, a thread that stores the current frame's indicators and asks again after one poll is served them for a different frame under exactly the condition of `FingerprintFooledIff` |
| `IndicatorCache.RepeatedPageHitsOldEntry` | services/signal_service.py:147-152 | After a repeated page the caller of a different frame is served the old frame's indicators |
| `CachePipeline.CachedIndicatorsAreExact` | services/signal_service.py:138-166 | Both caches together: while every poll comes in order or brings a newer candle, a hit with any frame the feed handed out, however stale, gives that frame's own indicators, whatever polls, readers and other threads do |
| `CachePipeline.AnswersAreSnapshots` | data_stream.py:346-368 | Along such polls every frame the feed hands out is a value of the series |
| `OrderMonitor.CheckOrderFillStatus` | execution.py:522-552 | Open and filled flags per order kind, with the two-second guard after a replacement |
| `OrderMonitor.RunSafetyCheck` | execution.py:554-586 | Missing protections are rebuilt when due, the check time moves on, and a placement without order ids leaves the monitor by exception |
| `OrderMonitor.SafetyReplacesIff` | execution.py:554-586 | The orders change if and only if the check is due, they are missing and the replacement works; the check time moves on exactly when it was due |
| `OrderMonitor.ReviewExit` | execution.py:699-716 | Only a due review that says leave, before any break-even move, can end the position, and only after an accepted close; the exit price falls back to the entry when missing or zero, and a refused close tries again |
| `OrderMonitor.ReviewEndsIff` | execution.py:699-716 | A due review that asks to leave ends the run if and only if the stop has not moved, the close is accepted and the price lookup does not raise; the exit price is the market's, or the entry when it is missing or zero |
| `OrderMonitor.HoldLimitEndsIff` | execution.py:628-645 | The hold limit ends the run if and only if it is set, reached, and the close is accepted or not needed; the exit price is the market's, or the entry when it cannot be read |
| `OrderMonitor.MoveToBreakEven` | execution.py:718-745 | Only a first move past the trigger, outside the replacement guard, moves the stop, and it moves it to the entry; a failed replacement raises with the stop where it was |
| `OrderMonitor.TriggerIsShare` | execution.py:727-731 | The trigger is passed if and only if the price has moved in the position's favour by the configured share of the entry and by 0.5% of it |
| `OrderMonitor.BreakEvenMovesIff` | execution.py:718-745 | A pass that nothing else diverts, with a price and outside the replacement guard, moves the stop to the entry and takes the new orders if and only if the price has moved that far in the position's favour |
| `OrderMonitor.OnePass` | execution.py:628-747 | One pass of the loop refines the composition of its phases |
| `OrderMonitor.MonitorOco` | execution.py:588-747 | The loop refines the fold of passes and stops at the first that returns or raises |
| `OrderMonitor.FirstPassIsDue` | execution.py:610-627 | A run starts with its timers at zero, so the first pass checks and reviews as soon as the clock is past the intervals |
| `OrderMonitor.SuperviseSound` | execution.py:615-747 | Over any run: the stop is the original one before the break-even move and the entry after it, the move needs a price past the trigger (in plain arithmetic in `BreakEvenNeedsMove`), at most one close is accepted, and the pass that ended the run did not believe a fill within two seconds of the move |
| `OrderMonitor.BreakEvenNeedsMove` | execution.py:718-745 | In any run that moved its stop, some price so far was at least the configured share of the entry, and 0.5% of it, away from the entry on the profit side |
| `OrderMonitor.StopMovesOnce` | execution.py:718-745 | A stop that differs from an earlier one is the entry and never changes again in that run, and the trigger had been passed |
| `OrderMonitor.LastPassDecides` | execution.py:628-747 | The outcome of a run is the outcome of its last pass, and no earlier pass returned or raised |
| `OrderMonitor.StopOnlyImproves` | execution.py:727-743 | Between any two moments of a run a losing-side stop moves only in the position's favour and never past the entry; a winning-side stop never moves in its favour |
| `OrderMonitor.LosingStopTightens` | execution.py:727-743 | For a long whose stop starts below the entry the stop only rises, up to the entry; for a short whose stop starts above it, it only falls |
| `OrderMonitor.TpMeansExecutedIffPlain` | execution.py:532-546 | A TP result means an executed take-profit if and only if it is a plain order: an algo order that is absent or whose lookup failed counts as filled |
| `OrderMonitor.SlMeansExecutedIffPlain` | execution.py:541-547 | The same for an SL result and the stop order |
| `OrderMonitor.DeadPairIsNeverReported` | execution.py:682-690 | With one plain order executed, the other ended and no replacement, no run ever reports that execution |
| `OrderMonitor.EarlyExitWasClosed` | execution.py:630-645 | An EARLY result follows exactly one accepted close; without one only if there was no quantity to close |
| `OrderMonitor.ReportedProfit` | monitor_runtime.py:81-107 | TP reports the profit at the take-profit, SL the profit at the original stop or 0 after the move, EARLY the profit at its exit price, UNKNOWN nothing |
| `OrderMonitor.OrphanBooksUnknownAtStop` | monitor_orphan.py:211-235 | Without hold limit and review no run exits early, and the orphan monitor books what the live monitor books except for UNKNOWN, where it books the profit at the stop |
| `Rounding.RoundQtyIsLargestMultiple` | execution.py:184-192 | Flooring finds the largest multiple of the step not above the quantity and loses less than one step |
| `Rounding.RoundQtyKeepsMultiples` | execution.py:184-192 | Whole numbers of steps are kept |
| `Rounding.RoundQtyIdempotent` | execution.py:184-196 | Flooring twice is flooring once |
| `Rounding.RoundQtyMonotone` | execution.py:184-192 | Flooring is monotone |
| `Rounding.RoundPriceWithinLimits` | execution.py:198-215 | A price is accepted exactly when price and tick are positive; the result obeys the limits and is within a tick below the asked price unless a limit forces it |
| `LimitFallback.FirstPositiveFloat` | execution.py:78-90 | The first positive readable value, else the default |
| `LimitFallback.FirstPositiveIsFirst` | execution.py:78-90 | The value at the first position that is readable and positive, and the default exactly without one |
| `LimitFallback.PlaceLimitWithMarketFallback` | execution.py:290-348 | Maker with the fill and price of the first filled poll; exception on a failed placement, a raising poll or a raising market order; otherwise last polled quantity plus believed market quantity, with the quantity-weighted price |
| `LimitFallback.FilledPollMakesEntry` | execution.py:314-321 | A poll that answers with the whole quantity, after polls that answered with less, makes the entry: maker, whole quantity, at its average, else its price, else the placement's average, its price, the asked price |
| `LimitFallback.TimedOutIff` | execution.py:312-330 | The order times out if and only if every poll answers and none sees the whole quantity, and then what the last one left open is bought at market |
| `LimitFallback.MarketEntryPrice` | execution.py:328-345 | An entry bought at market costs the market reply's average, else its price, when the limit order filled nothing, and otherwise average times quantity is the sum of both legs at the prices in their replies |
| `LimitFallback.RaisesIff` | execution.py:303-335 | The call raises if and only if the placement does, a poll raises before one sees the whole quantity, or the market order it needs raises |
| `LimitFallback.GapFillsAreMissed` | execution.py:314-345 | For every history of partial fills and polls, and whatever the replies say, the opened position differs from the returned quantity by exactly the sum of the fills after the last poll (until the cancel, or for good when it fails) plus what the reply leaves out of the market fill; nothing on the maker path |
| `LimitFallback.ZeroReplyHidesMarketLeg` | execution.py:338 | For every order a reply that states no fill for a filled market order hides the whole market leg |
| `LimitFallback.ReportsAtMostRequested` | execution.py:328-345 | With a reply that claims no more than was asked no more than the requested quantity is returned, and the position is at most twice that |
| `LimitFallback.WholeOrderBoughtTwice` | execution.py:322-345 | For every order: filled whole just before the cancel it is bought a second time, so the position is twice what is returned |
| `LimitFallback.ReportsRequestedInWholeSteps` | execution.py:328-345 | In whole steps with a filled market order exactly the requested quantity is returned, and the position is larger by the fills after the last poll |
| `LimitFallback.RaisedIsSafeIff` | execution.py:303-335 | Taking an exception for an entry that bought nothing is safe, over everything the exchange may do, if and only if the requested quantity is zero |
| `LimitFallback.RaisedPositionBounds` | execution.py:303-335 | Behind an exception at least the quantity polls had seen is open and at most twice the requested one |
| `LimitFallback.LostPlacementLeavesWholePosition` | execution.py:303-311 | For every order a placement whose reply is lost can leave the whole quantity open |
| `LimitFallback.LostPollLeavesWholePosition` | execution.py:314-316 | For every order one raising poll can leave the whole quantity open |
| `LimitFallback.LostMarketOrderLeavesWholePosition` | execution.py:322-335 | For every order a failed cancel and a raising market order can leave the whole quantity open |
| `LimitFallback.AverageBetweenLegs` | execution.py:337-344 | Average times quantity is what both legs cost, the average lies between the prices of the two legs, and is the market leg's without a limit fill |
| `EntrySizing.MarginWithinBalance` | sizing.py:39-90 | In every mode the margin is between 0 and the available balance |
| `EntrySizing.SimpleMargins` | sizing.py:46-66 | Fixed mode: the configured margin; percentage mode: that share of the balance; both cut at the balance and zero without one |
| `EntrySizing.PositiveMargin` | sizing.py:67-90 | A positive risk-based margin is exactly what the full quantity needs at the configured leverage, cut at the usable balance and the balance |
| `EntrySizing.RiskMarginPositiveIff` | sizing.py:67-90 | Risk-based mode commits a margin if and only if there is a balance, a share of it to use and to risk, a price and a distance to the stop |
| `EntrySizing.FuturesExecutor.Setup` | execution.py:217-238 | The step-down terminates at an accepted leverage between 1 and the configured one, or raises leaving it untouched |
| `EntrySizing.SteppedDownIff` | execution.py:226-238 | The step-down ends with the first leverage among lev, lev - 5, ..., 1 that is not refused as too high, and succeeds exactly when that one is accepted |
| `EntrySizing.FuturesExecutor.CalcQty` | execution.py:251-255 | The most whole steps whose value at the price is within margin times leverage: one step more is not; without a step size exactly that value |
| `EntrySizing.LossAtStopWithinBudget` | services/entry_service.py:488-522 | Risk-based sizing end to end: quantity times distance to the stop is within balance * utilization * risk pct for every leverage at or below the configured one |
| `EntrySizing.BudgetUsedUpToOneStep` | sizing.py:83-90 | With a risk-based margin below both caps and the configured leverage, the loss at the stop is within the budget and one step more would exceed it |
| `EntrySizing.GuardComparesLossWithMargin` | services/entry_service.py:551-577 | The liquidation guard refuses a plan if and only if the loss at its stop is below margin * anti_liq_trigger_r |
| `EntrySizing.PlanIsOkIff` | services/entry_service.py:551-590 | A plan passes if and only if quantity and entry are positive, both exchange minimums that are set are met, and, with the guard on, the loss at the stop is at least margin * anti_liq_trigger_r |
| `EntrySizing.GuardedMarginWithinBudget` | services/entry_service.py:551-577 | A plan that passes the guard keeps margin * anti_liq_trigger_r within the risk budget |
| `RiskThrottle.RiskManager.InitEquity` | risk.py:51-58 | Sets equity, day baseline and day, and nothing else |
| `RiskThrottle.RiskManager.CanTrade` | risk.py:69-111 | New day, then day pause, loss pause, cooldown, streak and drawdown limits in this order; the first that refuses decides, and reaching the streak or a drawdown limit arms its pause |
| `RiskThrottle.RiskManager.UpdateTrade` | risk.py:113-126 | On the trade's own UTC day equity moves by the profit, the cooldown restarts and the streak grows on a loss and is cleared otherwise |
| `RiskThrottle.EquityConserved` | risk.py:121 | Equity is initial plus all realized profit |
| `RiskThrottle.PausedForTheDay` | risk.py:78-79 | After a drawdown pause every check of that UTC day is refused |
| `RiskThrottle.RefusedUntilPauseEnds` | risk.py:81-94 | After a loss pause at t every check in [t, t+pause) is refused, also across midnight |
| `RiskThrottle.GrantedMeetsLimits` | risk.py:86-111 | A granted check meets the cooldown since every earlier trade, the streak limit and both drawdown limits on the loss realized that UTC day |
| `RiskThrottle.GrantedIff` | risk.py:69-111 | A check is granted if and only if no check of the day hit a drawdown limit, no loss pause runs, and cooldown, streak and drawdown limits hold (written out in `GrantedInPlainTerms`) |
| `RiskThrottle.GrantedInPlainTerms` | risk.py:69-111 | From init_equity a check is granted if and only if the day is not halted, no loss pause runs, every earlier trade is at least the cooldown old, the losses counted are fewer than the limit or there is none, and the loss realized that UTC day is below each limit set |
| `RiskThrottle.PausesHaveCauses` | risk.py:78-111 | The day is halted if and only if an earlier check of that day halted it, and a loss pause runs if and only if an earlier check armed one that has not ended |
| `RiskThrottle.ArmsPauseIff` | risk.py:91-94 | A check arms the loss pause if and only if nothing refuses it before and at least max_consecutive_losses losses are counted |
| `RiskThrottle.HaltsDayIff` | risk.py:96-109 | A check halts the day if and only if nothing refuses it before and the loss realized that UTC day is at a drawdown limit |
| `RiskThrottle.CheckInPlainTerms` | risk.py:69-111 | Which of the three outcomes a check has, and what it does to every field, with the limits as inequalities |
| `RiskThrottle.TradeInPlainTerms` | risk.py:113-126 | What a trade does to every field: one more loss or none, equity, cooldown and the day it falls on |
| `RiskThrottle.StreakCountsLosses` | risk.py:91-94 | The loss counter is the number of losing trades since the last non-loss, new day or arming of a pause |
| `RiskThrottle.LossPauseSurvivesRestart` | services/bootstrap_service.py:311-349 | A loss pause survives save, load and init_equity |
| `RiskThrottle.DrawdownPauseOutlivesItsDay` | risk.py:51-58 | After a restart a saved drawdown pause refuses every check of the restart day, whichever day that is |
| `RiskThrottle.FirstCheckAfterRestart` | risk.py:51-58 | With cooldown, loss pause and streak out of the way the first check on the restart day is granted if and only if the saved record was not paused |
| `RiskThrottle.RestartForgetsDayLoss` | risk.py:51-58 | After a restart the drawdown limits are measured from the new balance alone, whatever had been lost that day |
| `RiskThrottle.RestartLiftsDrawdown` | risk.py:51-58 | A loss that has reached a drawdown limit refuses the next check without a restart and does not after one |
| `KillSwitches.OperationalService.ActivateSuspension` | services/operational_service.py:594-604 | Sets or renews one deadline; untimed suspensions and later deadlines stay |
| `KillSwitches.OperationalService.EvaluateSuspensionRules` | services/operational_service.py:549-592 | Applies the five rules in order |
| `KillSwitches.OperationalService.ClearSuspension` | services/operational_service.py:616-629 | Removes one suspension and zeroes its counter |
| `KillSwitches.OperationalService.ExpireSuspensions` | services/operational_service.py:638-643 | Removes exactly the elapsed suspensions and zeroes their counters |
| `KillSwitches.OperationalService.OnHeartbeat` | services/operational_service.py:237-255 | New events count as a poll and lift a stale-scheduler suspension; elapsed suspensions leave before any rule can arm one again |
| `KillSwitches.OperationalService.CanOpenNewEntries` | services/operational_service.py:259-267 | The gate is open exactly when kill switches are off or nothing is suspended after expiry and evaluation |
| `KillSwitchLaws.GateOpensIff` | services/operational_service.py:259-267 | With kill switches on the gate opens if and only if every suspension has elapsed and no enabled rule is tripped after that |
| `KillSwitchLaws.TripsInPlainTerms` | services/operational_service.py:549-592 | Each rule as an inequality: a counter at its positive limit, or the last new poll longer ago than allowed |
| `KillSwitchLaws.OpenGateInPlainTerms` | services/operational_service.py:259-267 | An open gate leaves every counter below its limit and a scheduler that is not idle |
| `KillSwitchLaws.OpenGateIsClean` | services/operational_service.py:259-267 | An open gate leaves no suspension and no tripped rule |
| `KillSwitchLaws.CounterCountsFailures` | services/operational_service.py:549-629 | Over any run each counter is the number of its failures since the last success of its kind or the end of its suspension |
| `KillSwitchLaws.FailuresShutGate` | services/operational_service.py:259-267 | As many failures as the limit since then shut the gate, unless the suspension has just elapsed |
| `KillSwitchLaws.PollsAreRemembered` | services/operational_service.py:237-245 | Over any run the remembered poll time and count are those of the latest heartbeat that brought new polls |
| `KillSwitchLaws.IdleSchedulerShutsGate` | services/operational_service.py:586-592 | When that time is longer ago than allowed the gate is shut |
| `KillSwitchLaws.OrphanShutsGate` | services/operational_service.py:594-604 | An unrecoverable orphan shuts the gate until its deadline, and for good when suspensions have none |
| `KillSwitchLaws.StepOnReason` | services/operational_service.py:549-643 | What one event does to one suspension: leave, stay, start or renew |
| `KillSwitchLaws.LiftedCounterIsZero` | services/operational_service.py:616-629 | A counter suspension that elapses leaves a zero counter and is not armed again in that pass |
| `KillSwitchLaws.DeadlineNeverDecreases` | services/operational_service.py:597-604 | A deadline never moves back while its suspension stays |
| `KillSwitchLaws.DeadlineIsLatestTrip` | services/operational_service.py:594-604 | Each timed deadline is the latest activation plus suspend_sec |
| `KillSwitchLaws.UntimedLeavesIff` | services/operational_service.py:237-245 | One event lifts an untimed suspension if and only if it is a stale scheduler's and the event a heartbeat with new polls |
| `KillSwitchLaws.UntimedStays` | services/operational_service.py:598-600 | An untimed suspension stays through a whole run if and only if it is not a stale scheduler's or no heartbeat of the run saw new polls |
| `KillSwitchLaws.EvaluationRenews` | services/operational_service.py:594-643 | An event that does not reset the counter lifts the suspension if and only if it looks for elapsed ones at or after the deadline; every other evaluation renews it |
| `KillSwitchLaws.PolledSuspensionNeverEnds` | services/operational_service.py:223-267 | While heartbeats and gate checks come less than suspend_sec apart a tripped counter's suspension never ends |
| `KillSwitchLaws.PolledGateStaysShut` | services/operational_service.py:259-267 | ... and the gate stays shut |
| `LossLadder.LossScaler.DeferLevel` | monitor_scaling.py:45-79 | One more attempt; done at five, else a doubling back-off of at most 60 s |
| `LossLadder.LossScaler.Absorb` | monitor_scaling.py:181-236 | Books a fill: blended entry over the rounded quantity, protections in up to three tries, then the level is done |
| `LossLadder.LossScaler.EvaluateLossScaling` | monitor_scaling.py:19-236 | One call closes all when the structure broke, else climbs at most the one due level: too small skips it, a failed or empty order defers it, a fill is booked |
| `LossLadder.FillsOnlyWhenDue` | monitor_scaling.py:103-137 | Every fill is for the one open level in turn, at or beyond its loss threshold and after its retry time, with structure intact |
| `LossLadder.ActsExactlyWhen` | monitor_scaling.py:19-137 | A call closes all if and only if mark or last close has reached the stop, and else acts if and only if the first open level has lost half, once or twice the initial margin and its retry time has come |
| `LossLadder.LevelOutcomeIff` | monitor_scaling.py:139-180 | A level that acts is skipped if and only if what it can buy is nothing or below an exchange minimum, and deferred if and only if else a live order raises or fills nothing |
| `LossLadder.ProtectedIff` | monitor_scaling.py:194-216 | A fill is protected if and only if one of three tries to replace its protections works |
| `LossLadder.AddQtyIs` | monitor_scaling.py:103-141 | The three levels ask for what one, two and four times the initial margin buys at the mark |
| `LossLadder.BuyableAffords` | monitor_scaling.py:139-141 | That is the most whole steps within capital times leverage |
| `LossLadder.BackOff` | monitor_scaling.py:45-79 | The first four failed tries of a level wait 2, 4, 8 and 16 seconds, and the fifth closes it |
| `LossLadder.RecordedLevels` | monitor_scaling.py:183-224 | A recorded fill puts risk at the distance from the new average to the stop, and the target max(configured reward, 1.8) of it away on the profit side |
| `LossLadder.CallIsOrderly` | monitor_scaling.py:103-137 | One call climbs only an open level, in order, and a deferral uses one attempt |
| `LossLadder.LadderBounds` | monitor_scaling.py:29-61 | Over any run: levels in order, each completed at most once and deferred at most five times, completed margin at most 7 times the initial |
| `LossLadder.CostConserved` | monitor_scaling.py:181-224 | Over any run entry * quantity equals the original cost plus what completed levels paid |
| `LossLadder.FillIsRecordedIff` | monitor_scaling.py:183-224 | A fill is recorded if and only if the new quantity is not rounded to nothing, the new average is not the stop and one of three protection replacements works; otherwise the state is unchanged |
| `LossLadder.BooksShowRecordedFills` | monitor_scaling.py:181-224 | Over any run in whole steps the booked quantity is the start plus the recorded fills |
| `LossLadder.AcceptedCloseLeaves` | execution.py:657-668 | An accepted close closes the booked quantity, so it leaves open exactly the fills that were never recorded, and nothing if and only if every fill of the run was recorded |
| `LossLadder.UnrecordedFillsAreUnbounded` | execution.py:657-668 | A call that buys without recording and does not end the monitor buys the same quantity again any number of times |
| `LossLadder.SlippedFillsGoUnrecorded` | monitor_scaling.py:181-189 | A concrete market: a short at 10 with its stop at 12 buys one unit at 14 on every call, any number of times, and its record never changes |
| `LossLadder.UnprotectedFillsGoUnrecorded` | monitor_scaling.py:194-216 | A second one: the unit fills at 11, its protections cannot be placed and the close is refused, and every call buys one more |
| `Signals.BumpReject` | strategy.py:43-45 | Adds one to the key when there is a dictionary |
| `Signals.OrderedIffRisk` | strategy.py:264-271 | A signal of the promised shape has stop, price and target in order if and only if its risk is positive |
| `Signals.RatiosMultipliedOut` | strategy.py:107-181 | Body and volume thresholds without a division: part at least x times the whole |
| `Signals.TrendSpeaksIff` | strategy.py:218-238 | When the higher timeframe is bullish, against, or without a say |
| `BosEngine.MaxHigh` | strategy.py:153-160 | The highest high of the lookback |
| `BosEngine.ScanForBreak` | strategy.py:107-181 | The scan finds the latest qualifying candle of the ten before the current one; without one its flags say exactly whether a break failed on trend and on volume |
| `BosEngine.QualifiesIff` | strategy.py:107-181 | A break qualifies if and only if its close is above every high from thirty to three candles back, on stacked EMAs, with 1.2 times the average volume and a body of 35% of the range |
| `BosEngine.CheckRetest` | strategy.py:192-290 | The gates emit exactly when all hold; a failing one counts one reject |
| `BosEngine.RetestIff` | strategy.py:192-290 | Every gate of the retest as an inequality between the candle's own values |
| `BosEngine.ScorePassesIff` | strategy.py:242-262 | The score is enough if and only if body, volume, distance to the level and RSI are all at least in their second-best band and at most one is not in its best |
| `BosEngine.EvaluateBos4h` | strategy.py:64-290 | A signal exactly when the latest qualifying break is being retested; otherwise usable data is rejected once, and a no-break label is justified by some scanned candle |
| `BosEngine.RetestMeans` | strategy.py:192-290 | A retest enters at most 0.05 ATR below the broken high and stops half an ATR below it, so its levels are in order whatever band is configured |
| `OtherEngines.EvaluateNr4` | strategy.py:293-472 | A signal exactly when the compression-breakout setup holds, with its stop, target and score; at most one reject |
| `OtherEngines.Nr4SetupIff` | strategy.py:293-472 | Every gate of the compression breakout as an inequality between the candles' own values |
| `OtherEngines.Nr4ScorePassesIff` | strategy.py:423-443 | Behind the other gates the score is enough if and only if one of three combinations of width, body, volume and RSI bands holds |
| `OtherEngines.Atr10IsMean` | strategy.py:355-357 | The reference ATR is the tenth of the sum of the last ten |
| `OtherEngines.Nr4Means` | strategy.py:293-472 | A compression breakout enters above both narrow days and stops below both, so its levels are in order whatever band is configured; its score is in [1.90, 2.25] |
| `OtherEngines.EvaluateShort15m` | strategy.py:475-652 | A signal exactly when the overextension setup holds, with its stop, target and score; at most one reject |
| `OtherEngines.ShortSetupIff` | strategy.py:475-652 | Every gate of the short as an inequality between the candles' own values |
| `OtherEngines.ShortScoreIs` | strategy.py:584-618 | The score up to rounding, part by part, without its inner ratios |
| `OtherEngines.ShortMeans` | strategy.py:475-652 | An overextension short enters below the whole signal candle and stops above it, so its levels are in order whatever band is configured; its score is in [1.30, 2.40] |
| `PullbackEngine.CheckPullback` | strategy.py:816-883 | Trend, spread, pullback, structure and momentum gates hold exactly when it passes |
| `PullbackEngine.MomentumIff` | strategy.py:871-883 | The momentum gate as inequalities between the candle's own values |
| `PullbackEngine.SpreadIff` | strategy.py:832-849 | The spread gate as inequalities: the EMAs apart by the configured part of an ATR, outside the dead zone |
| `PullbackEngine.SetupIff` | strategy.py:716-815 | Which rows and columns the engine needs and reads, and when it has them |
| `PullbackEngine.SignalIff` | strategy.py:716-948 | The signal candle passes its gates if and only if, interval by interval, it satisfies inequalities with every number written out |
| `PullbackEngine.ConfirmIff` | strategy.py:950-1050 | The same for the confirmation candle and the risk |
| `PullbackEngine.PullbackIff` | strategy.py:716-1135 | An entry is both of these, a context that does not speak against it, a score at its interval's minimum, and an ATR within its spike limit |
| `PullbackEngine.Score15mIs` | strategy.py:1051-1062 | The strict 15m score up to rounding, part by part |
| `PullbackEngine.Score1hIs` | strategy.py:1063-1074 | The strict 1h score up to rounding, part by part |
| `PullbackEngine.ScoreElseIs` | strategy.py:1096-1106 | The score of every other entry up to rounding, part by part |
| `PullbackEngine.CheckExtension` | strategy.py:884-948 | Passes exactly when the interval's volume, extension and RSI limits hold; a failure counts at most one reject, a pass none, and a pass carries the score penalty of its heated readings |
| `PullbackEngine.CheckConfirmation` | strategy.py:950-1043 | Passes exactly when the close confirms and the higher timeframe is not against it (or, at 15m, the candle is strong enough); long bias exactly on a bullish context, with the penalty of the others |
| `PullbackEngine.CheckRiskAndScore` | strategy.py:1045-1135 | Risk band, score and ATR-spike gates; the signal has the promised shape |
| `PullbackEngine.EvaluatePullback` | strategy.py:716-1135 | A signal exactly when every gate of the interval's profile holds; at most one reject, none when it emits |
| `PullbackEngine.PullbackMeans` | strategy.py:716-1135 | A pullback entry is in an up-trend whose low came back to the fast EMA, with the stop below that low; outside strict 15m and 1h the price is above the whole candle, so the risk is positive whatever band is configured |
| `PullbackEngine.EvaluateSignal` | strategy.py:655-1135 | Whichever engine answers: stop = price -/+ risk, target = price +/- rr * risk, risk inside its ATR band, and the levels in order when the band starts above zero; at most one reject per call, none on a signal; shorts only from the 15m short engine |
| `Indicators.AlphasAreShares` | indicators.py:13-50 | The EMA weighs its newest sample 2 parts in period + 1, ATR and RSI one part in period |
| `Indicators.GainsLessLossesAreMoves` | indicators.py:42-46 | Gain less loss is the move, and one of them is zero |
| `Indicators.TrueRangeIsPath` | indicators.py:18-29 | The true range of a well-formed bar is the stretch of prices since the last close |
| `Indicators.EwmWithinRange` | indicators.py:13-15 | The exponential mean stays within the range of the samples so far |
| `Indicators.WarmUpFades` | indicators.py:13-15 | Two runs sharing their last k samples differ by exactly (1 - alpha)^k times their earlier difference |
| `Indicators.EwmNegates` | indicators.py:13-15 | The mean of the negated series is the negated mean |
| `Indicators.RsiIsShareOfGains` | indicators.py:42-50 | RSI is the share of gains in all movement, undefined exactly when there is none |
| `Indicators.RsiRangeAndMirror` | indicators.py:42-50 | RSI lies in [0, 100], and the RSI of the negated series is 100 minus it, defined together |
| `Indicators.AtrBounds` | indicators.py:18-30 | ATR is between 0 and the widest path of a bar since the last close |

## Left out

- Exchange client, HTTP sessions, thread pools, sleeps and retry messages: the exchange's answers and the clock are parameters of each step.
- Telegram, logging, report rendering, CSV output, statistics, symbol loading, pickle cache: plumbing without an invariant. `FetchKlines` therefore returns an empty frame where the program would try a stale cache file.
- Configuration and bootstrap wiring: only their bounds (leverage at least 1) appear, as preconditions.
- Paper mode of the entry protocol: paper positions never appear at the exchange, so the position bound does not apply to it.
- The position cache's time-to-live: `EntryGate` lets every cache read return any set of symbols, which covers any staleness.
- Positions opened outside the bot: the exchange only closes positions or fills the bot's own orders.
- Float rounding, Decimal precision and overflow: arithmetic is exact.
- `evaluate_signal` inside the simulator is any deterministic function that may raise; its reject counts and the metadata columns of a trade (signal index, market phase, rounded copies) are not part of the simulator model.
- Text fields of a signal; the 4h and 1d branches of the pullback engine that the dispatch never reaches.
- `ewm` of a series with NaN inside it.
- Restoring operational counters from disk: the program converts them with `int`, so the round trip is not exact.
- The JSON text of the risk record: `save` and `load` are modelled field by field.
- How an orphan is recovered, early-exit decisions and level geometry after the fill: no further hard invariant.
- KlinePaging.FetchKlines: assumes the history does not change while it is being paged.
- LimitFallback: an exchange that breaks its own rules (a fill that shrinks or exceeds the order); `Honest` names the rules, and `Placement` itself is defined without them.
- OrderMonitor.MonitorOco: `scale_fn` is absent, and take-profit and stop are given, as in both callers (monitor_runtime.py:60, monitor_orphan.py:211).
- MarketFeed.MarketDataStream.FetchAndUpdate: models one symbol and interval; the dictionaries keyed by symbol and interval are independent copies of it.
