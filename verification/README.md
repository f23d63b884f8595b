# Dafny model of the FVG and Cascade Raid trading system

This project models the decision-making parts of the repository and proves what they are for. Prices are exact reals,
bar times are integers, and the outside world (broker, database, clock) is an environment that may move or fail between
any two calls.

What it covers, from the centre outwards:

- **The FVG engine.** `FvgModel` and `Journal` say what the strategy means on a whole day of bars, without saying how to
  search for it: pivots, raids, structure shifts, gaps, fills, exits, the winning search and the two event logs.
  `BatchModel` is the golden-master program's nested loops with early exit; `Detectors`, `TradeAttempts` and
  `Orchestrator` are the streaming engine's classes, fed one bar at a time. Both are proved against the same meaning, so
  they return the same trade for every day (`Equivalence`). `Causality` shows that nothing looks ahead, `LogInclusion`
  relates the two logs in both directions and `LogCounts` counts their entries, `Mirror` is the long/short symmetry,
  `TradeStory` the reconstruction of a trade's story from stored events, `Equity` the R multiples and the equity curve.
  `PlainDay` says once more, in bars and prices with every comparison and constant written out, what the day's trade
  is, and `PlainJournal` what each journaled event means; both are proved to be what the engines return and store.
- **The live pipeline.** `DailyTrend` is the trend filter with its restart; `LiveRunner` is polling, day rollover, the
  10:00 decision with its late backfill, journal flushing and finalize, over whole runs; `Calendar` says how a feed of
  bars falls into whole days, and `PlainLive` in clock times and prices what a finished day's record holds.
- **Real money.** `Brokers` and `OrderManagement` are one subscriber's order race. What the broker does between any two
  calls, and whether a call is refused, never arrives or loses its reply, are inputs, so every result holds for every
  behaviour of the broker. `Sizing` is the lot size and the live target, `PositionBooks`
  and `PositionTracking` the overnight positions under failing listings, histories and commits, over runs with
  restarts.
- **Cascade Raid.** `CascadeSignals` (the detector's loops), `FractalSwings` (its streaming swing detector),
  `CascadePositions` (the position simulator) and `CascadeSlots` (when its slot cap really is one); `PlainCascade` and
  `PlainPositions` characterize signals, trades and the breaker in bars and prices.
- **Services.** `Pagination` (deep candle fetches) and `Provisioning` (the claim protocol for account set-up and
  tear-down, endpoint by endpoint and over whole runs), with `PlainProvisioning` for whose rows a request touches and
  when it is granted.

Results that differ from what the code or its comments suggest, each proved with an exact condition or a concrete input:

- Two kinds of day are skipped live although the batch model trades them: a day whose bars stop before 10:00, and a day
  with fewer than twelve session bars by then. Exactly on such days with a winner the two trades differ
  (`LiveRunner.TradesAgree`, `LiveRunner.SessionsAgree`); `LiveRunner.MissedBeforeTen` and `LiveRunner.MissedShort` are
  one day of each kind whose trade is lost.
- `check_for_fills` reads positions before pending orders. Among the orders it drops as gone, one has an open position
  exactly when it was pending at the first read and is a position at the second (`OrderManagement.TwoReadRace`); the run
  in `OrderManagement.RaceLosesAFill` ends with a live position that nothing follows.
- The day-end clean-up leaves a waiting order's position open exactly when the order had just filled, or fills before a
  cancel gets there, and the position does not close by itself (`OrderManagement.LeftAtDayEnd`); its cancel is reported
  as failed exactly when the order is no longer pending at that cancel or the call itself fails. Such a run is
  `OrderManagement.LateDayEndCancel`.
- The Cascade slot cap bounds the number of open trades exactly for caps of one and two; for the configured caps of
  three and four, with the configured stop and target distances, there are lists of distinct orders, one for each
  shift bar, that exceed it (`CascadeSlots.CapHoldsExactlyUpToTwo`). That result is about every list of orders; the
  detector would not emit these in the rising market that they are built for. The cap check repeated at the fill bar
  can never reject (`CascadeSlots.SecondCheckNeverRejects`).
- After a restart the tracker closes half of what is left of a position once more exactly when the record of the first
  partial close was lost, so its row still says "open" (`PositionTracking.RestartRepeats`; the run
  `PositionTracking.RepeatedClose` does it). Over any run with restarts the broker closes a ticket in part at most once
  more often than records of it were lost, within one process at most once (`PositionTracking.LostClosesBound`,
  `PositionTracking.OncePerProcess`). Registering a ticket a second time forgets its partial close
  (`PositionBooks.RegisterAgain`).
- A restarted trend filter keeps the trend of the day of the restart for four days, even if a swing around the restart
  has turned it meanwhile (`DailyTrend.WarmUp`; the gate in `DailyTrend.RestartedGateDiffers` says long when the batch
  model says short); without such a swing it agrees with the batch model (`DailyTrend.RestartedTrendAgrees`).
- The story read for a trade is the winner's own exactly when the winner was announced with the entry and stop of the
  fill found and no search of an earlier shift bar was (`TradeStory.OwnStory`).
- A paginated fetch is shorter than the least of the requested count, the history and 25000 exactly when that length
  exceeds 25000 minus the candles that arrived between the calls (`Pagination.LengthReached`).
- Two claims by one machine that both pass the capacity check before either takes a job exceed the machine's capacity
  exactly when one slot is free and at least two credentials are pending (`Provisioning.UnlockedClaims`); taken one at a
  time they never do.
- The lot size, rounded to eight digits, respects the broker's bounds for every budget and stop exactly when rounding
  neither lowers the minimum nor raises the maximum (`Sizing.BoundsRespected`); `Sizing.BelowMinimum` is a size below
  the minimum.

`dafny verify dfyconfig.toml` checks the whole project.

## Model

| member | source | states |
|---|---|---|
| `FvgModel.LatestPivot` | phase1/extract_golden_master.py:209-226 | the latest five-bar pivot before a bound: it is a pivot and no later one lies before the bound |
| `FvgModel.FirstTouch` | phase1/extract_golden_master.py:290-291 | the fill bar is the first bar of the window that touches the entry; none before it does |
| `FvgModel.FirstExit` | phase1/extract_golden_master.py:310-330 | the exit bar is the first from the fill bar on that hits the stop or the target |
| `FvgModel.ExtremeBar` | phase1/extract_golden_master.py:294-296 | the target bar is the first with the highest high, for a long, or the lowest low, for a short, of the bars before the fill |
| `FvgModel.AttemptAt` | phase1/extract_golden_master.py:288-332 | a search fills strictly after its gap bar and exits no earlier than it fills |
| `FvgModel.VerdictUnique` | phase1/extract_golden_master.py:228-231 | a day has at most one winner, the lexicographically least pair of raid and shift bar that fills |
| `FvgModel.VerdictExists` | phase1/extract_golden_master.py:228-231 | every day has a verdict: a least pair that fills, or none that does |
| `PlainDay.TradeIs` | phase1/extract_golden_master.py:228-348 | a search has a trade in plain terms (sweep, shift, gap, first touch, target bar, stop before target) if and only if it fills in the model, and the same one |
| `PlainDay.VerdictIsDayTrade` | phase1/extract_golden_master.py:228-348 | the verdict's trade is the trade of the earliest raid bar and, for it, the earliest shift bar that have one in plain terms |
| `PlainDay.DayTradeUnique` | phase1/extract_golden_master.py:228-348 | a day has at most one trade in plain terms |
| `BatchModel.CentredWindow` | phase1/extract_golden_master.py:210-211 | being the extremum of the slice of five is being a pivot, ties included |
| `BatchModel.FindPivots` | phase1/extract_golden_master.py:209-226 | the two lists hold exactly the pivots of the day in order; the log is the confirmation log |
| `BatchModel.BisectIsLatest` | phase1/extract_golden_master.py:234-238 | the entry before the bisection point is the latest pivot known two bars earlier; position 0 means none |
| `BatchModel.CheckRaid` | phase1/extract_golden_master.py:233-240 | the level to sweep and the opposite level, or no levels, for both trends |
| `BatchModel.SearchFill` | phase1/extract_golden_master.py:288-348 | one fill-and-exit search returns the trade that its setup has on this day, scratched if still open, or none |
| `BatchModel.ExaminePair` | phase1/extract_golden_master.py:254-347 | one shift bar of one raid: a trade exactly when the pair fills, with its log |
| `BatchModel.SearchShift` | phase1/extract_golden_master.py:254-347 | the shift loop of one raid stops at the first pair that fills and logs every pair it examined |
| `BatchModel.RunDay` | phase1/extract_golden_master.py:228-462 | the whole day loop returns the trade of the least filling pair, or none when no pair fills, and the day's log |
| `Causality.AttemptCausal` | phase1/streaming/trade_attempt.py:118-182 | where a search stands after n bars depends on those n bars alone |
| `Causality.StreamLogCausal` | phase1/streaming/day_orchestrator.py:122-224 | the events emitted up to a bar depend on the bars up to it alone |
| `Detectors.WindowShowsPivot` | phase1/streaming/intraday_swing_detector.py:57-98 | the middle of the five-bar deque is its extremum exactly when it is a pivot of the whole day |
| `Detectors.IntradaySwingDetector.OnNewBar` | phase1/streaming/intraday_swing_detector.py:57-98 | emits exactly the pivots whose window this bar completes |
| `Detectors.RaidDetector.OnNewBar` | phase1/streaming/raid_detector.py:51-132 | emits the raid of this bar, checked before the new swings are folded in, and tracks the latest confirmed swings |
| `Detectors.ConfirmedIsLatest` | phase1/streaming/raid_detector.py:51-132 | the fields folded from swing events are the batch model's latest pivots with the two-bar confirmation lag |
| `Detectors.FoldConfirms` | phase1/streaming/raid_detector.py:51-132 | folding this bar's swing events after the check moves the fields to the next bar's latest pivots |
| `Detectors.FvgDetector.CheckFvg` | phase1/streaming/fvg_detector.py:47-86 | the three-bar deque yields exactly the gap that the whole-day arrays hold at this bar |
| `TradeAttempts.AttemptStep` | phase1/streaming/trade_attempt.py:118-205 | one bar moves the state of a search as the whole-day search, cut at that bar, moves |
| `TradeAttempts.WindowTarget` | phase1/streaming/trade_attempt.py:118-182 | the six-bar deque's first extreme is the batch model's target bar |
| `TradeAttempts.ExtremeTick` | phase1/streaming/trade_attempt.py:138-147 | the first entry of the deque with the highest high, for a long, or the lowest low, for a short |
| `TradeAttempts.TradeAttempt.constructor` | phase1/streaming/trade_attempt.py:66-111 | a new search carries the setup of its gap, seeded with the six bars before the next, or is rejected for its stop |
| `TradeAttempts.TradeAttempt.OnNewBar` | phase1/streaming/trade_attempt.py:118-182 | after each bar the fields show where the search stands; the events are its fill and exit at that bar |
| `TradeAttempts.TradeAttempt.CheckClose` | phase1/streaming/trade_attempt.py:184-205 | stop before target, at the stop or target price, otherwise nothing changes |
| `TradeAttempts.TradeAttempt.CloseAsScratch` | phase1/streaming/trade_attempt.py:207-223 | only a filled search is scratched, at the final close |
| `Orchestrator.DayOrchestrator.OnNewBar` | phase1/streaming/day_orchestrator.py:122-224 | after each bar every candidate, search, deque and the whole journal are what the bars so far determine |
| `Orchestrator.DayOrchestrator.DetectRaid` | phase1/streaming/day_orchestrator.py:122-224 | inside the Kill Zone every raid starts its own watch and is journaled |
| `Orchestrator.DayOrchestrator.FeedAttempts` | phase1/streaming/day_orchestrator.py:122-224 | every live search sees the bar once, in order of creation |
| `Orchestrator.DayOrchestrator.FeedWatch` | phase1/streaming/day_orchestrator.py:122-224 | a watch that is not expired confirms the shift, finds the gap, and spawns a search exactly for an accepted gap |
| `Orchestrator.DayOrchestrator.FeedWatches` | phase1/streaming/day_orchestrator.py:122-224 | the searches spawned at a bar are one for each raid whose shift it confirms behind an accepted gap |
| `Orchestrator.DayOrchestrator.LeastFilled` | phase1/streaming/day_orchestrator.py:226-255 | the least key among all searches that filled, closed or not |
| `Orchestrator.DayOrchestrator.BestIsVerdict` | phase1/streaming/day_orchestrator.py:226-255 | the least filled key among the searches is the winner over all pairs of the day |
| `Orchestrator.DayOrchestrator.Finalize` | phase1/streaming/day_orchestrator.py:226-255 | the trade of the day's verdict, scratched if still open, and the final journal |
| `Equivalence.RunStream` | phase1/streaming/day_orchestrator.py:122-255 | feeding any day and finalizing gives the trade of the day's verdict and the full journal |
| `Equivalence.BothEngines` | phase1/streaming/day_orchestrator.py:122-255 | for every day, trend and Kill Zone within it, the streaming engine and the batch loops return the same trade or none: the day's trade in plain terms |
| `LogInclusion.AttemptCut` | phase1/streaming/trade_attempt.py:118-182 | cutting a search at a bar forgets exactly the fill and the exit at that bar or later |
| `LogInclusion.AttemptEventsAre` | phase1/streaming/trade_attempt.py:118-205 | a search's fill and exit are emitted at their own bars and nothing else is |
| `LogInclusion.BatchLogIncluded` | phase1/extract_golden_master.py:209-462 | every event the batch loops log is in the streaming journal, up to the added reference level |
| `LogCounts.WatchIsRows` | phase1/streaming/day_orchestrator.py:149-215 | the watch events of the stream are, as a multiset, the rows of examined pairs raid by raid |
| `LogCounts.SearchEmits` | phase1/streaming/trade_attempt.py:118-205 | over its life a search emits its fill and its exit once each |
| `LogCounts.BatchLogCounted` | phase1/extract_golden_master.py:209-462 | no event occurs more often in the batch log than in the streaming journal with the added levels left off |
| `PlainJournal.JournalMeans` | phase1/streaming/day_orchestrator.py:122-224 | an event is in the journal of a day if and only if it is true of the day, kind by kind, with each of its fields in bars and prices |
| `PlainJournal.ScratchMeans` | phase1/streaming/day_orchestrator.py:226-255 | finalizing adds exactly the close of a trade still open, at the last bar's time and close |
| `LogInclusion.ExtrasAfterWinner` | phase1/streaming/day_orchestrator.py:122-255 | beyond the batch log the journal holds only announcements and events that come after the winner in search order |
| `Mirror.AttemptMirror` | phase1/streaming/trade_attempt.py:118-205 | negating prices and flipping the side mirrors every state of a search |
| `Mirror.DayMirror` | phase1/streaming/day_orchestrator.py:145-255 | the mirrored day has the same winner and the mirrored trade |
| `Mirror.MirroredRuns` | phase1/streaming/day_orchestrator.py:122-255 | two runs of the engine, on a day and on its mirror image, return mirrored trades |
| `TradeStory.FillOrigin` | phase1/streaming/day_orchestrator.py:149-215 | every fill in the journal belongs to an accepted search of the day |
| `TradeStory.CandidateOrigin` | phase1/streaming/day_orchestrator.py:149-215 | every announcement belongs to a raid, a shift and an accepted gap with that entry and stop |
| `TradeStory.Announced` | phase1/streaming/day_orchestrator.py:149-215 | every search was journaled with its raid, shift, gap and announcement |
| `TradeStory.StoryComplete` | app/core/trade_story.py:107-207 | for every fill found, the chain is fully resolved and its raid, shift, gap and announcement fit together, in any row order |
| `TradeStory.FillFoundMeans` | app/core/trade_story.py:107-131 | the fill is the first linked row; only without one the first of the trade's side and price |
| `TradeStory.RunnerFillMeans` | shadow_runner/runner.py:951-988 | the runner's search finds the first fill of the trade's side and price |
| `TradeStory.RunnerCloseMeans` | shadow_runner/runner.py:951-988 | the runner's search finds the last close of the trade's outcome and exit price |
| `TradeStory.AnnouncedInOrder` | phase1/streaming/day_orchestrator.py:149-215 | announcements are journaled in order of the shift bar and, within a bar, of the raid |
| `TradeStory.FoundAnnouncement` | app/core/trade_story.py:136-150 | read in journal order the announcement found is the winner's if and only if the winner's fits the fill and none of an earlier shift bar does |
| `TradeStory.OwnStory` | app/core/trade_story.py:189-207 | for a returned trade a fill is found and the chain is complete; it is the winner's own under exactly that condition |
| `TradeStory.FallbacksUnreachable` | shadow_runner/runner.py:951-988 | the fallbacks for a missing fill or close event are unreachable for a trade that finalize returns |
| `Equity.EngineTradesAreSound` | phase1/streaming/trade_attempt.py:108-223 | every trade of the engine has its stop and target on the right sides and an exit that fits its outcome |
| `Equity.RBounds` | shadow_runner/persistence.py:422-441 | R is -1 on a loss, positive on a win, above -1 and below the target's R on a scratch |
| `Equity.StepBound` | shadow_runner/persistence.py:512-513 | one equity step keeps at least 1 - risk of the equity, loses exactly that share on a loss and grows on a win |
| `Equity.CurveBound` | shadow_runner/persistence.py:512-513 | the equity curve stays positive and each step keeps at least 1 - risk |
| `Equity.ThreeCases` | phase1/extract_golden_master.py:467-477 | the single formula for R is the batch model's three cases |
| `Equity.BatchStepIs` | phase1/extract_golden_master.py:467-477 | one step of the stored equity is one step of the batch curve |
| `Equity.BatchCurve` | phase1/extract_golden_master.py:466-478 | the batch loop's curve is the fold of the stored-equity formula |
| `DailyTrend.DailyTrendAsOf` | phase1/extract_golden_master.py:86-121 | the look-up over precomputed pivots gives the trend of the last two pivots of each kind confirmed before the day |
| `PlainLive.TrendMeans` | phase1/extract_golden_master.py:86-121 | up exactly when both the last two swing highs and the last two swing lows rise, down exactly when both fall |
| `PlainLive.GateTrendMeans` | phase1/streaming/day_selection_gate.py:191-206 | the gate compares the prices of its last two highs and its last two lows |
| `PlainLive.ConfirmationsMean` | phase1/streaming/day_selection_gate.py:135-157 | the confirmed lists hold exactly the swing days whose two following days have come, in order |
| `DailyTrend.LastTwo` | phase1/extract_golden_master.py:111-116 | the last two entries of the filtered list are the last two pivots before the bound |
| `DailyTrend.DailySwingDetector.OnNewDay` | phase1/streaming/daily_swing_detector.py:36-75 | emits exactly the daily pivots whose window this day completes |
| `DailyTrend.DaySelectionGate.OnDayClosed` | phase1/streaming/day_selection_gate.py:135-157 | the confirmed lists hold every confirmed daily pivot so far, in order, on top of the seed |
| `DailyTrend.DaySelectionGate.SeedTrendHistory` | phase1/streaming/day_selection_gate.py:159-189 | seeding replaces the confirmed lists of a fresh gate |
| `DailyTrend.LastConfirmations` | phase1/streaming/day_selection_gate.py:191-206 | the last two confirmations of a stream of days are the last two pivots of the whole history |
| `DailyTrend.TrendFromIsTrendAt` | phase1/streaming/day_selection_gate.py:191-206 | the gate's rule on its lists gives the trend of the next day |
| `DailyTrend.DaySelectionGate.GateMatchesBatch` | phase1/streaming/day_selection_gate.py:191-206 | fed the first c days of any history the gate's trend is the batch look-up for day c, whatever comes later |
| `DailyTrend.SeedSuffices` | phase1/streaming/day_selection_gate.py:159-189 | seeding only the last two swings of each kind keeps every later trend |
| `DailyTrend.RestartConfirms` | phase1/streaming/daily_swing_detector.py:36-75 | a restarted detector confirms exactly the pivots whose whole five-day window came after the restart |
| `DailyTrend.RestartAgrees` | phase1/streaming/day_selection_gate.py:159-206 | the seeded gate's list equals an uninterrupted one if and only if no pivot straddles the restart |
| `DailyTrend.RestartedGateAgrees` | phase1/streaming/day_selection_gate.py:159-206 | a gate seeded with the last two swings of each kind and fed n days has the batch trend for that day when no pivot of either kind lies around the restart |
| `DailyTrend.UnseededIsTrendAt` | phase1/streaming/day_selection_gate.py:191-206 | without seeds the trend after n days is the batch look-up |
| `DailyTrend.RestartedTrendAgrees` | phase1/streaming/day_selection_gate.py:159-206 | as a statement about the trend alone: seeded with what a restart recovers it is the batch trend when no pivot lies around the restart |
| `DailyTrend.WarmUp` | phase1/streaming/day_selection_gate.py:159-189 | for its first four days a restarted gate keeps the trend of the day of the restart |
| `DailyTrend.RestartedGateDiffers` | phase1/streaming/day_selection_gate.py:159-206 | a gate, seeded and fed three days, says long when the batch look-up says short |
| `LiveRunner.GateForDay` | phase1/streaming/day_selection_gate.py:208-276 | the loops compute the decision rule: reasons to skip in order, or the first bars at 7:00 and 10:00 |
| `PlainLive.AcceptedMeans` | phase1/streaming/day_selection_gate.py:242-276 | accepted exactly off FOMC days, with a trend, twelve bars and one from 7:00 on; the session starts at the first bar from 7:00 on and ends at the first from 10:00 on |
| `PlainLive.SkippedMeans` | phase1/streaming/day_selection_gate.py:242-276 | each reason to skip, exactly when it is the first that applies |
| `PlainLive.LiveSessionMeans` | shadow_runner/runner.py:405-409 | the live session is decided exactly by the bars up to and including the first from 10:00 on, at least twelve of them |
| `LiveRunner.DecisionIsFinal` | phase1/streaming/day_selection_gate.py:242-276 | the decision at 10:00 is the batch decision on any longer day, except exactly when twelve bars come only later; days that never reach 10:00 are in SessionsAgree |
| `LiveRunner.SessionsAgree` | phase1/streaming/day_selection_gate.py:242-276 | for every list of bars live and batch choose the same session if and only if the day is not one of the two missed kinds, and those the batch model trades and live does not |
| `LiveRunner.TradesAgree` | shadow_runner/runner.py:369-417 | for every list of bars the live and the batch trade differ if and only if the day is missed and has a winner; then live has none |
| `LiveRunner.MissedBeforeTen` | shadow_runner/runner.py:405-409 | twelve bars from 7:00 to 7:55 with a trade in the batch model and none live |
| `LiveRunner.MissedShort` | phase1/streaming/day_selection_gate.py:242-276 | twelve bars of which eleven came by 10:00, with a trade in the batch model and none live |
| `LiveRunner.SoFarStep` | shadow_runner/day_state.py:48-55 | the running high and low are the extremes of all bars of the day so far, session bars or not |
| `LiveRunner.CurrentDay.AddBar` | shadow_runner/runner.py:405-417 | decides at the first bar at or after 10:00, backfills, then feeds; the engine always holds exactly the day's bars |
| `LiveRunner.CurrentDay.TakeBar` | shadow_runner/runner.py:398-417 | every bar moves the range, only a session bar is appended |
| `LiveRunner.CurrentDay.Backfill` | shadow_runner/runner.py:489-495 | the engine created late is in the state of one that saw every bar |
| `LiveRunner.CurrentDay.Flush` | shadow_runner/runner.py:501-506 | each event is stored once, in order |
| `LiveRunner.CurrentDay.Finalize` | shadow_runner/runner.py:890-898 | the trade and the stored journal of the finished day |
| `LiveRunner.LiveMatchesBatch` | shadow_runner/runner.py:369-417 | on every list of bars that is not missed the live trade is the batch model's on the same bars or neither trades; a missed day has no live trade |
| `LiveRunner.CoveringFetch` | shadow_runner/runner.py:331-343 | a fetch that reaches back far enough yields exactly the closed bars not yet processed |
| `LiveRunner.NewClosedSorted` | shadow_runner/runner.py:331-343 | filtering keeps increasing order, so the final sort changes nothing |
| `LiveRunner.FilterNewClosed` | shadow_runner/runner.py:331-343 | the loop keeps the closed and new candles in order |
| `LiveRunner.HistoryStep` | shadow_runner/runner.py:890-923 | a finished day extends the recorded history with its trade and journal, and its range the trend filter's |
| `LiveRunner.ShadowRunner.FinalizeDay` | shadow_runner/runner.py:890-923 | rollover records the finished day's trade and its stored journal with the trend of the days before it |
| `LiveRunner.ShadowRunner.OpenDay` | shadow_runner/runner.py:369-396 | the day in progress is finished exactly when the bar has another date, and a day of the bar's date is then in progress |
| `LiveRunner.ShadowRunner.ProcessBar` | shadow_runner/runner.py:369-417 | one bar: ignored exactly when no day is in progress and its date is over; otherwise it joins the day of its date, which it starts if the date changed |
| `LiveRunner.ShadowRunner.Poll` | shadow_runner/runner.py:190-198 | one poll processes the closed new candles, each once, oldest first; the ignored ones are exactly the initial ones whose date was over, the others are split by date |
| `Calendar.ByDateIsDays` | shadow_runner/runner.py:369-396 | bars in increasing order split at each change of date are whole days: one date each, the dates strictly increasing, nothing lost |
| `Calendar.WholeDay` | shadow_runner/runner.py:369-396 | a bar lies in the day of its date and in no other |
| `LiveRunner.ShadowRunner.DaysAreWhole` | shadow_runner/runner.py:369-396 | every finished day and the one in progress is all bars of its date that were not ignored |
| `LiveRunner.FetchYields` | shadow_runner/runner.py:331-343 | one covering fetch adds exactly the bars closed since the previous poll, under that poll's wall-clock date |
| `LiveRunner.Run` | shadow_runner/runner.py:190-198 | for any swings given to the trend filter at start-up and any run of covering fetches each closed bar from the first one offered on is taken once in order; exactly the initial bars whose date was over when taken are ignored; the others form whole days, each with the engine's verdict and journal on its session bars under the trend of those swings and the days before it |
| `PlainLive.RecordedMeans` | shadow_runner/runner.py:890-923 | over any recorded history: the day's trade in plain terms on the session bars of its session, none without one, and every winner's raid bar opened from 7:00 on and before 10:00 |
| `PlainLive.RecordedJournalMeans` | shadow_runner/runner.py:501-506 | over any recorded history: the stored journal holds exactly the events true of the session bars, and the close of a trade still open |
| `PlainLive.SessionBarsMean` | shadow_runner/day_state.py:57-61 | the session bars are those from 5:00 on and before 17:00, in order |
| `PlainLive.RangeMeans` | shadow_runner/day_state.py:48-55 | a day's range is the highest high and the lowest low of all its bars |
| `PlainLive.ClosedMeans` | shadow_runner/runner.py:331-343 | the bars closed at a poll are those that opened at least five minutes before |
| `Brokers.AnyMove` | shadow_runner/order_manager.py:391-428 | the modelled moves of the broker are exactly: orders leave, positions close or arise from orders that left |
| `OrderManagement.OrderManager.OnCandidate` | shadow_runner/order_manager.py:273-352 | after a winner, when paused or for a known key the broker is not asked at all; otherwise it gets one order, followed exactly when the reply arrives |
| `OrderManagement.CandidateMeans` | shadow_runner/order_manager.py:273-352 | a candidate none of the waiting orders is of gives one journal entry and, accepted over a clear line, joins them; one that waits already, or after a win, changes nothing |
| `OrderManagement.TwoOrders` | shadow_runner/order_manager.py:315-352 | two candidates placed one after the other wait together |
| `OrderManagement.BothFill` | shadow_runner/order_manager.py:593-683 | both fill before the next check: the first wins and the position of the second is closed |
| `OrderManagement.OrderManager.CheckForFills` | shadow_runner/order_manager.py:391-428 | two reads with any moves before and between: the first order they show as filled wins, gone ones before it are dropped, the rest still waits |
| `OrderManagement.FillsMean` | shadow_runner/order_manager.py:404-428 | a fill is reported exactly if both reads succeed and show some waiting order gone from the pending ones with a position; otherwise just the orders still pending go on waiting |
| `OrderManagement.OrderManager.Scan` | shadow_runner/order_manager.py:404-428 | the loop over the waiting orders on both reads: at most one fill, and each order before it settled by what the reads show |
| `OrderManagement.OrderManager.OnFill` | shadow_runner/order_manager.py:593-634 | one winner; journal, broker book and every sibling's end are those of dealing with the siblings in turn; only the winner remains |
| `OrderManagement.OrderManager.CancelSibling` | shadow_runner/order_manager.py:616-683 | a sibling is cancelled, or found filled and closed; each failing call, the position read included, leads to its own report and leaves the book as the calls left it |
| `OrderManagement.SiblingGone` | shadow_runner/order_manager.py:636-683 | a sibling dealt with is neither an order nor a position unless one of the calls made for it failed, whatever the broker did in between |
| `OrderManagement.Undisturbed` | shadow_runner/order_manager.py:616-683 | left alone by the broker, a pending sibling is cancelled, a filled one closed, and one that is neither reported |
| `OrderManagement.FailedCalls` | shadow_runner/order_manager.py:636-683 | without a read of the positions there is no close; a close is reported only if it went through |
| `OrderManagement.FillBystander` | shadow_runner/order_manager.py:616-683 | dealing with the siblings leaves the winner's position and everything else of the account alone unless the broker moves it |
| `OrderManagement.OrderManager.CheckForClose` | shadow_runner/order_manager.py:430-495 | the winner's close is reported once, exactly when the positions can be read, it is gone from them and the history confirms it |
| `OrderManagement.OrderManager.CancelAllAtDayEnd` | shadow_runner/order_manager.py:708-727 | nothing is left waiting; each waiting order is cancelled exactly if still pending at its turn and the call gets through, otherwise reported; the book is what cancels and moves leave |
| `OrderManagement.PendingSoFar` | shadow_runner/order_manager.py:712-727 | an order is still pending at its cancel exactly when it was at first and no move so far took it away |
| `OrderManagement.DayEndReports` | shadow_runner/order_manager.py:708-727 | a waiting order is reported as cancelled exactly if it was pending, no move up to its turn took it and the call got through; otherwise as failed |
| `OrderManagement.LeftAtDayEnd` | shadow_runner/order_manager.py:708-727 | a waiting order has a position after the day end if and only if it had filled, or fills before a cancel gets there, and does not close again; it stays pending only if nothing took it away and its cancel never arrived |
| `OrderManagement.DayEndBystander` | shadow_runner/order_manager.py:708-727 | the day end leaves tickets of others alone unless the broker moves them |
| `OrderManagement.LateDayEndCancel` | shadow_runner/order_manager.py:708-727 | a run without a failing call that ends with a live position that is not the winner's |
| `OrderManagement.OrderManager.ExposureBound` | shadow_runner/order_manager.py:593-632 | whatever the broker has live under a ticket issued since the start waits here, is the winner's, was cancelled too late at day end, was lost between two reads, or a call on that very ticket failed |
| `OrderManagement.OrderManager.OneStoryEach` | shadow_runner/order_manager.py:593-683 | at most one winner ever, once; the journal ends each order's story at most once, counted, and none both wins and ends |
| `OrderManagement.MoveKeeps` | shadow_runner/order_manager.py:391-428 | no move of the broker between calls breaks the accounting |
| `OrderManagement.EndKeeps` | shadow_runner/order_manager.py:616-683 | recording an ending that fits the broker's book keeps the accounting |
| `OrderManagement.WinKeeps` | shadow_runner/order_manager.py:593-614 | recording the winner keeps the accounting |
| `OrderManagement.DropKeeps` | shadow_runner/order_manager.py:413-425 | dropping an order that is no longer pending keeps the accounting, as lost exactly if its position is open |
| `OrderManagement.PlaceKeeps` | shadow_runner/order_manager.py:336-352 | an order issued by the broker, known here or not, keeps the accounting |
| `OrderManagement.TradingDay` | shadow_runner/order_manager.py:273-727 | a whole day under any calls, broker moves and failures: the fates cover exactly the tickets issued, all have an ending, and what the broker still has live is the winner's, cancelled too late, lost between reads, or a call on that very ticket failed; the last two never with snapshots and clean calls |
| `OrderManagement.AtEveryMoment` | shadow_runner/order_manager.py:273-727 | at every moment of a day the waiting orders are of different candidates and the exposure is bounded as at its end |
| `OrderManagement.TwoReadRace` | shadow_runner/order_manager.py:404-425 | among the orders a check drops, one has an open position if and only if it was pending at the first read and is a position at the second |
| `OrderManagement.RaceLosesAFill` | shadow_runner/order_manager.py:404-425 | a run without a failing call in which a filled order is dropped while its position is open |
| `Sizing.LotSize` | shadow_runner/order_manager.py:59-117 | an error exactly for a stop distance that is not positive; otherwise the rounded size is within the broker's bounds up to half a unit of the eighth digit |
| `Sizing.RoundKeepsSide` | shadow_runner/order_manager.py:117 | rounding to eight digits never crosses a number of at most eight decimals |
| `Sizing.BoundsRespected` | shadow_runner/order_manager.py:105-117 | the size is within the bounds for every balance, risk share and stop if and only if rounding neither lowers the minimum nor raises the maximum |
| `Sizing.BelowMinimum` | shadow_runner/order_manager.py:105-117 | a minimum of nine decimals and an empty budget give a size below the minimum |
| `Sizing.RoundingIsSafe` | shadow_runner/order_manager.py:105-117 | bounds of at most eight decimals meet that condition; with such a step the rounding changes nothing |
| `Sizing.PipCancels` | shadow_runner/order_manager.py:94-105 | the pip constant cancels: raw size times the loss per lot is the risk budget |
| `Sizing.RiskBound` | shadow_runner/order_manager.py:100-117 | the rounded size risks at most the budget plus the two slacks unless raised to the minimum; one more step would exceed it unless cut to the maximum |
| `Sizing.LiveTargetIsModelTarget` | shadow_runner/order_manager.py:120-149 | the live target from the last closed bars is the model's target, or an error below six bars |
| `PositionBooks.PartialKeeps` | shadow_runner/position_tracker.py:275-355 | an executed partial close, recorded or lost, keeps every invariant and moves statuses only forward |
| `PositionBooks.ThresholdMeans` | shadow_runner/position_tracker.py:175-181 | the threshold is 17 hours after the midnight that starts the entry's day |
| `PositionBooks.HalfMeans` | shadow_runner/position_tracker.py:275-284 | half the volume is a whole number of hundredths, nearest to it |
| `PositionBooks.OnceAndLost` | shadow_runner/position_tracker.py:275-355 | a ticket was closed in part once for its record, if there is one, and once for each record lost; its final close was recorded at most once |
| `PositionBooks.FinalKeeps` | shadow_runner/position_tracker.py:375-422 | a final close, committed or rolled back, keeps every invariant |
| `PositionBooks.RegisterKeeps` | shadow_runner/position_tracker.py:166-173 | registering a trade keeps every invariant if and only if no other row has its ticket and the broker knows it |
| `PositionBooks.RegisterAgain` | shadow_runner/position_tracker.py:166-173 | registering a ticket a second time forgets its partial close: it is due again from the new threshold on |
| `PositionTracking.PositionTracker.RegisterNewPosition` | shadow_runner/position_tracker.py:166-173 | the ticket is followed with its new row; the invariants survive exactly for a ticket no other row has |
| `PositionBooks.BrokerMoveKeeps` | shadow_runner/position_tracker.py:183-209 | positions ending or opening between calls keep every invariant |
| `PositionTracking.PositionTracker.constructor` | shadow_runner/position_tracker.py:145-159 | a new process follows one row that is not closed for each ticket that has one; with distinct tickets, exactly those rows |
| `PositionTracking.PositionTracker.DoPartialClose` | shadow_runner/position_tracker.py:275-355 | which of the four outcomes applies and the whole new state: unchanged unless the broker executed; then the ticket is marked whether or not the record was committed |
| `PositionTracking.PositionTracker.HandleVanished` | shadow_runner/position_tracker.py:361-422 | the outcome follows from history and commit; only a committed final close lets go of the ticket |
| `PositionTracking.TurnKeeps` | shadow_runner/position_tracker.py:183-209 | a ticket's turn keeps every invariant, restart or not, and moves statuses only forward |
| `PositionTracking.PositionTracker.VisitTicket` | shadow_runner/position_tracker.py:183-209 | one ticket's turn, its outcome and the whole new state: final close if unlisted, partial close if due, else nothing |
| `PositionTracking.PositionTracker.CheckPositions` | shadow_runner/position_tracker.py:183-209 | one poll with a listing gives every followed ticket its turn: outcome, memory, row, executions and volume of each are those its calls lead to, and nothing else changes; without a listing nothing does |
| `PositionTracking.Run` | shadow_runner/position_tracker.py:145-209 | any interleaving of polls, broker moves, new trades and restarts: every state keeps the invariants and every step does what its turn says |
| `PositionTracking.OncePerProcess` | shadow_runner/position_tracker.py:275-355 | between restarts a ticket is closed in part at most once, and never if the memory knew of it |
| `PositionTracking.LostClosesBound` | shadow_runner/position_tracker.py:326-351 | over any run with restarts the broker closes a ticket in part at most once more than records of it were lost; its final close is recorded at most once |
| `PositionTracking.RecordedAtOnce` | shadow_runner/position_tracker.py:361-422 | the first poll after the end of a position that gets listing, history and commit records its close and lets go of it |
| `PositionTracking.ReleasedRecorded` | shadow_runner/position_tracker.py:361-422 | a ticket is let go of only by a poll that got listing, history and commit, and then its close is recorded |
| `PositionTracking.ClosesWhenDue` | shadow_runner/position_tracker.py:275-355 | a poll past the threshold that can close half of an open position does so once, unless the memory marks the ticket |
| `PositionTracking.RetriedUntilRecorded` | shadow_runner/position_tracker.py:361-422 | a ticket still followed at the end of a run after its position ended was failed by listing, history or commit at every poll since |
| `PositionBooks.RestartKeeps` | shadow_runner/position_tracker.py:145-159 | a restart keeps all invariants, follows the same trades and remembers exactly the recorded partial closes |
| `PositionBooks.RestartKnows` | shadow_runner/position_tracker.py:145-159 | after a restart the memory knows of every partial close if and only if none went unrecorded |
| `PositionTracking.RestartRepeats` | shadow_runner/position_tracker.py:145-209 | a poll after a restart in which the close would go through executes it, again if it was executed before, if and only if the row still says open |
| `PositionTracking.RepeatedClose` | shadow_runner/position_tracker.py:326-351 | a run that ends with two executed partial closes of one position, one record lost and a quarter of the volume left |
| `CascadeSignals.CentredCount` | cascade_raid/streaming/signal_detector.py:59-65 | maximum and count of one in the slice of five is being a strict swing |
| `CascadeSignals.FindFractalSwings` | cascade_raid/streaming/signal_detector.py:55-66 | the array marks exactly the strict swings |
| `CascadeSignals.FindShift` | cascade_raid/streaming/signal_detector.py:107-115 | the first close beyond the structure within fifteen bars, if any |
| `CascadeSignals.FindGap` | cascade_raid/streaming/signal_detector.py:69-80 | the latest gap of the leg |
| `CascadeSignals.Attempt` | cascade_raid/streaming/signal_detector.py:111-138 | one sweep is resolved completely: pool consumed exactly when the shift is found, signal only with a gap in the right half |
| `PlainCascade.RunIs` | cascade_raid/streaming/signal_detector.py:103-167 | at every bar each pool holds the latest confirmed swing exactly if no sweep before has found its shift |
| `PlainCascade.HitsMean` | cascade_raid/streaming/signal_detector.py:83-169 | a swing has a signal if and only if its first sweep that finds a shift has its gap in the right half of the leg, with that sweep, shift and gap; signals come in order of the sweep bar |
| `PlainCascade.SignalsMean` | cascade_raid/streaming/signal_detector.py:83-169 | what detection returns are exactly the signals of the swings, in bars and prices |
| `CascadeSignals.DetectSignals` | cascade_raid/streaming/signal_detector.py:83-169 | the loop's signals are those of the step-by-step specification |
| `CascadeSignals.BoundedLookahead` | cascade_raid/streaming/signal_detector.py:103-169 | two series sharing their first m bars have the same signals for all sweeps before bar m - 15 |
| `CascadeSignals.RunFits` | cascade_raid/streaming/signal_detector.py:103-167 | at every point both pools hold confirmed swings and every signal fits its swing, sweep, shift and gap |
| `CascadeSignals.PoolConsumption` | cascade_raid/streaming/signal_detector.py:103-167 | each swing yields at most one signal on its side; the sweep is after confirmation, the shift is the first close beyond structure, 1 to 15 bars later |
| `CascadeSignals.LegRangePositive` | cascade_raid/streaming/signal_detector.py:122-123 | on well-formed bars the guard on the leg range never rejects |
| `FractalSwings.FractalSwingDetector.Update` | cascade_raid/streaming/fractal_swings.py:48-75 | each call reports the bar two back, with strict uniqueness, once five bars have come |
| `FractalSwings.BufferShowsSwing` | cascade_raid/streaming/fractal_swings.py:61-67 | the middle of the buffer is its extremum, once, exactly when it is a strict swing of the series |
| `FractalSwings.FindFractalSwingsStreaming` | cascade_raid/streaming/fractal_swings.py:78-95 | fed bar by bar the detector marks exactly the swings of the array loop |
| `CascadePositions.PositionManager.ProcessSignals` | cascade_raid/streaming/position_manager.py:91-163 | the loop over signals is the fold of the one-signal step |
| `CascadePositions.PositionManager.ProcessSignal` | cascade_raid/streaming/position_manager.py:99-163 | one signal: filters, breaker, cap, fill, second cap check, exit, streak |
| `PlainPositions.StepMeans` | cascade_raid/streaming/position_manager.py:99-163 | what becomes of a signal: out of range, skipped, without a slot, unfilled, or a trade from the first bar that reaches its price to the stop, the target or the cutoff |
| `CascadePositions.PositionManager.FindFill` | cascade_raid/streaming/position_manager.py:111-121 | the first touching bar within the order's life, if any |
| `CascadePositions.PositionManager.FindExit` | cascade_raid/streaming/position_manager.py:128-145 | stop before target from the bar after the fill up to the cutoff, otherwise the close there |
| `CascadePositions.BreakerAccounting` | cascade_raid/streaming/position_manager.py:99-163 | skips done plus owed are the skip length per trip; losses cover the threshold per trip plus the streak; one position per traded signal |
| `PlainPositions.TripMeans` | cascade_raid/streaming/position_manager.py:147-163 | a trade trips the breaker exactly if it is a loss that brings the losses since the last win or trip to the threshold |
| `PlainPositions.SkipMeans` | cascade_raid/streaming/position_manager.py:102-104 | a signal in range is skipped exactly if fewer have been skipped since the last trip than a trip costs |
| `CascadePositions.TrackedWithinCap` | cascade_raid/streaming/position_manager.py:104-154 | the tracked list never exceeds the cap |
| `CascadePositions.RunKeepsCap` | cascade_raid/streaming/position_manager.py:99-154 | with fills located in order the tracked exits are all exits from the last filter on, and the cap holds |
| `CascadePositions.SlotCap` | cascade_raid/streaming/position_manager.py:99-154 | with fills located in order no bar has more open trades than the cap, exit bar included |
| `CascadeSlots.SecondCheckNeverRejects` | cascade_raid/streaming/position_manager.py:124-126 | the cap check repeated at the fill bar never rejects |
| `CascadeSlots.RunDescribes` | cascade_raid/streaming/position_manager.py:99-154 | with a cap of at most two, the tracked list bounds the open trades after any signals |
| `CascadeSlots.Forgotten` | cascade_raid/streaming/position_manager.py:124-126 | with the configured pip distances and strictly increasing shift bars, a late fill between early ones lets 2 * (cap - 1) trades be open at once |
| `CascadeSlots.CapHoldsExactlyUpToTwo` | cascade_raid/streaming/position_manager.py:99-154 | the cap bounds the open trades of every market and signal list if and only if it is at most two |
| `Pagination.PagesMeet` | shadow_runner/bridge_client.py:118-126 | each page starts where the one before it ended or overlaps it, even if the history grows by up to a page |
| `Pagination.MergePage` | shadow_runner/bridge_client.py:120-126 | one turn extends the merged block downwards and stops for enough candles or a short page |
| `Pagination.SortByTime` | shadow_runner/bridge_client.py:127 | the merged candles in ascending order of time, none lost |
| `Pagination.GetCandlesPaginated` | shadow_runner/bridge_client.py:99-127 | the result is a contiguous, sorted, duplicate-free block that ends at the newest candle of the first call |
| `Pagination.LengthReached` | shadow_runner/bridge_client.py:105-127 | the promised length is reached exactly when it does not exceed 25000 minus the candles that arrived meanwhile |
| `Pagination.LengthWhenStill` | shadow_runner/bridge_client.py:105-127 | a history that does not grow gives the least of requested, available and 25000 |
| `Pagination.OneArrivalShortens` | shadow_runner/bridge_client.py:105-127 | one candle arriving between calls costs one candle of a full fetch |
| `Provisioning.RowMoves` | app/routers/internal_provisioning.py:84-231 | rows never change hands, labels never change, every change of state is one of the edges: a claimed job moves only by its machine's report |
| `PlainProvisioning.UserFrame` | app/routers/broker_credentials.py:51-59 | a user's request leaves other users' rows alone; of the user's own other rows it switches off the active ones exactly when it switches one on |
| `PlainProvisioning.OwnRow` | app/routers/broker_credentials.py:97-181 | of the row it names a user's request keeps owner and label; the active flag follows the request |
| `PlainProvisioning.MachineFrame` | app/routers/internal_provisioning.py:65-231 | a machine's request changes no row but the one it names or is handed, and never owner or active flag |
| `PlainProvisioning.FlagByOwner` | app/routers/broker_credentials.py:51-59 | over runs a credential's active flag changes only by a request of its owner |
| `PlainProvisioning.ClaimMeans` | app/routers/internal_provisioning.py:84-149 | a claim is granted exactly to a machine that is on and has room while a credential is pending; it gets the first, under its label |
| `PlainProvisioning.ClaimRemovalMeans` | app/routers/internal_decommission.py:42-87 | a tear-down is handed out exactly to a machine that is on while one is queued; it gets the first |
| `PlainProvisioning.ReportMeans` | app/routers/internal_provisioning.py:152-231 | a report is accepted exactly from the machine that is on and holds the credential in the expected state, and leaves its mark on that row |
| `PlainProvisioning.UserRepliesMean` | app/routers/broker_credentials.py:145-259 | exactly when create, retry and remove are accepted |
| `Provisioning.CapacityKept` | app/routers/internal_provisioning.py:84-118 | no request takes a machine over its capacity of in-progress and active credentials |
| `Provisioning.OneActiveKept` | app/routers/broker_credentials.py:51-59 | no request leaves a user with two active credentials |
| `Provisioning.RowsFitKept` | app/routers/broker_credentials.py:184-245 | labels, machines and addresses stay in step with the state of a row |
| `Provisioning.RunKeeps` | app/routers/internal_provisioning.py:65-231 | all invariants over every run of requests from empty tables |
| `Provisioning.ClaimsAreExclusive` | app/routers/internal_provisioning.py:152-166 | a credential is handed out a second time only after its machine reported failure and its owner retried |
| `Provisioning.TakeEffect` | app/routers/internal_provisioning.py:104-149 | taking a job moves the least pending credential to the machine and changes no other occupancy |
| `Provisioning.UnlockedClaims` | app/routers/internal_provisioning.py:84-118 | two claims that both pass the check before either takes a job break the capacity if and only if one slot is free and at least two credentials are pending |
| `Provisioning.UnlockedCheckOverruns` | app/routers/internal_provisioning.py:84-118 | such a database exists |
| `Provisioning.RemovedReturns` | app/routers/broker_credentials.py:225-245 | a removed row leaves that state exactly when its owner removes a labelled one again while a machine is on |
| `Provisioning.Service.CreateCredential` | app/routers/broker_credentials.py:44-94 | switches the user's others off; pending exactly when a machine is on |
| `Provisioning.Service.UpdateCredential` | app/routers/broker_credentials.py:97-142 | switching one on switches the others off; missing rows and empty updates are refused |
| `Provisioning.Service.RetryProvisioning` | app/routers/broker_credentials.py:145-181 | only a failed job returns to pending; the machine is cleared and the label kept |
| `Provisioning.Service.RemoveCredential` | app/routers/broker_credentials.py:184-259 | refused while worked on; immediate without a label; queued only while a machine is on, otherwise nothing is committed |
| `Provisioning.Service.FirstWith` | app/routers/internal_provisioning.py:104-110 | the least credential id in a state |
| `Provisioning.Service.ClaimJob` | app/routers/internal_provisioning.py:65-149 | unauthorized, at capacity, nothing pending, or the first pending job with its label set once |
| `Provisioning.Service.ClaimedRow` | app/routers/internal_provisioning.py:152-166 | a report is accepted only from the machine that holds the job in that state |
| `Provisioning.Service.ReportStep` | app/routers/internal_provisioning.py:169-189 | an unknown step is refused; an accepted one changes only the step |
| `Provisioning.Service.CompleteJob` | app/routers/internal_provisioning.py:192-210 | an accepted report makes the credential active with its address |
| `Provisioning.Service.FailJob` | app/routers/internal_provisioning.py:213-231 | an accepted report makes the credential failed with its error |
| `Provisioning.Service.ClaimRemovalJob` | app/routers/internal_decommission.py:42-87 | the first queued tear-down goes to the machine |
| `Provisioning.Service.ReportRemovalStep` | app/routers/internal_decommission.py:108-122 | an accepted step report changes only the step |
| `Provisioning.Service.CompleteRemovalJob` | app/routers/internal_decommission.py:125-153 | an accepted report clears everything but the label |
| `Provisioning.Service.FailRemovalJob` | app/routers/internal_decommission.py:156-174 | an accepted report records the failure |

## Left out

- Floating point: prices, volumes and money are exact reals; the 1e-9 tolerances and the rounding of the lot
  size to eight digits are kept; half a volume rounded to two decimals may be either neighbour on a tie.
- HTTP, authentication, sessions, SQL, Telegram, health checks, the MetaTrader 5 terminal, the frontend, migrations,
  scripts and audit rows.
- Time zones, daylight saving and resampling: bar times are integers, New York wall-clock minutes in the live pipeline.
  The runner's session window ends before the 17:00 bar (shadow_runner/day_state.py:59) while the batch slice
  includes it (phase1/extract_golden_master.py:190), so the two are compared on the same list of bars.
- The batch model's price arrays are modelled as one sequence of bars, and a Kill Zone must lie within the day.
- Runner errors: exceptions inside a poll, the `day_trend_determined` and day-skip rows, subscribers' managers inside
  the runner, the trade rows it writes, the recovery after a gap of whole days, and where the swings recovered or
  bootstrapped at start-up come from: they are an input of a run, and replaying today's bars is its first fetch.
- LiveRunner.ShadowRunner.Poll: the wall-clock date is read once for each poll, where the code reads it for each bar it
  has to judge.
- The daily-loss guard, attaching the target at the broker, the volume fallback, order comments, the winner's fill
  price, time and volume, and the outcome record of the order manager.
- Orphan recovery (shadow_runner/orphan_recovery.py): it compares directions in a vocabulary the bridge does not use, so
  there is no property of it to state.
- The events that the position tracker writes, and the profit of a partial close, which the source leaves empty.
- CascadePositions.SlotCap: one direction only, for caps above two; CascadeSlots has the exact condition on the cap.
- The Cascade bias filter, slippage summaries and the week-end cutoff itself, which is a parameter that never precedes
  the fill; a wing other than two.
- Pagination.GetCandlesPaginated: a failing page, which raises and yields nothing, and a last candle whose prices change
  between two calls.
- Provisioning.Service.ClaimJob: endpoints are atomic steps; the row lock and its skipping of locked rows are not
  modelled, UnlockedClaims says where that matters. Tokens, claim times and encrypted log-ins are left out.
- phase1/analyze_same_day_multi_candidate.py, the earlier scheduler and all reports.
