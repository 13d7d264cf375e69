# ETF signal fusion — a Dafny model

This project models the core of a small ETF advisory service. The service
fetches a fund's closing prices and runs three technical strategies on them:

- a dual moving average, with a 5-day and a 20-day average;
- RSI(14), with levels at 70 and 30;
- Bollinger bands, with a 20-day window at 2 standard deviations.

Each strategy emits a signal: 买入 (buy), 卖出 (sell) or 持有 (hold), with a
confidence. The engine fuses the three signals by vote. Ties are broken by the
summed confidence, and then by the order buy, sell, hold. The reported
confidence is the winner's average confidence. From that confidence the engine
sizes a buy as 10–50 % of capital. An advisory text accompanies the result. It
comes from a remote language model, a mock provider, a 24-hour cache or a
rule-based fallback.

The model also covers the parts around the engine:

- the SQLite store, with its funds, price bars, daily strategy records and
  advisory cache;
- the data service's retry loop, preset names, search, mock history and
  indicator series;
- the HTTP routes for strategies and funds.

Modules, one per file:

| module | file | models |
|---|---|---|
| `Wrappers` | wrappers.dfy | `Option` |
| `Text` | text.dfy | number formatting (`:.0f`, `:.0%`, `round`), substring search, ASCII lower-casing |
| `Indicators` | indicators.dfy | `calculate_ma`, `calculate_rsi`, `calculate_bollinger_bands` (rolling windows, NaN as `None`, `fillna`) |
| `StrategyEngine` | strategy_engine.dfy | the three strategies, the vote and `calculate_position` |
| `DataService` | data_service.dfy | retries, preset names, fund info, search, price history and its mock |
| `Database` | database.dfy | the `Store` class over the four tables, and queries as functions |
| `LlmService` | llm_service.dfy | provider choice, prompt, cache, mock replies, rule-based advice; the `Advisor` class |
| `StrategyApi` | strategy_api.dfy | `/strategy` routes and `generate_llm_advice` |
| `EtfApi` | etf_api.dfy | `/etf/list` and `/etf/add` |

## How the model treats the Python

**Numbers and missing values.**
- Floats are `real`.
- A pandas NaN is `None` in an `Option<real>`. Every comparison with `None` is false, as a comparison with NaN is.
- The quotients the strategies compute (the trends and the band widths) are numpy float64 divisions. They are values of `StrategyEngine.Float`: a real, +inf, −inf or NaN. A non-zero number over zero is an infinity of its sign; only 0/0 (and inf/inf) is NaN. Comparisons treat +inf as above and −inf as below every real, and NaN as neither.

**Clock, network and randomness.** These become parameters:
- days and seconds are `int`;
- each attempt's outcome is a function from the attempt number;
- a bounded wait's outcome is a datatype (timed out, failed, completed);
- the random draws and `hash(code)` are given functions and numbers;
- the sample standard deviation is a function `stdOf`, constrained where needed by `IsSampleStd`.

**State.** The database is a class, `Database.Store`:
- each table is a `seq` field, and the methods reassign it;
- autoincrement ids are counter fields;
- the invariant `Valid()` states unique keys, ids below the counter, increasing record ids, and that no stored record has an actual action, amount or remark;
- each method states its entire new state.

**Loops.** Where the source loops over a list, the model is a `method` with a `while` or `for` loop, proved against a function:
- `MergeBar`, applied in turn by `SavePriceHistory`;
- `BuildSignalLines`;
- `Tally`;
- `Retry`;
- the loops in `GetEtfList`, `AddEtf` and `GetStrategyHistory`.

## Model

| member | source | states |
|---|---|---|
| Indicators.FillNa | app/services/data_service.py:320 | every missing value becomes the fill value; every present value is kept, at the same position |
| Indicators.CalculateMa | app/services/data_service.py:313-320 | the MA series is as long as the prices and reads 0 at every position with fewer than `window` prices up to it |
| Indicators.CalculateMaAt | app/services/data_service.py:313-320 | the MA series is as long as the prices; it is 0 wherever fewer than `window` prices precede (so everywhere for a short series), else the mean of the trailing window |
| Indicators.CalculateMaWithinWindow | app/services/data_service.py:318-320 | a moving average lies between any lower and upper bound of the prices in its window |
| Indicators.Gains | app/services/data_service.py:329-330 | the gain series has the prices' length and is never negative |
| Indicators.Losses | app/services/data_service.py:329-331 | the loss series has the prices' length and is never negative |
| Indicators.GainsLossesStep | app/services/data_service.py:329-331 | at each day at most one of gain and loss is non-zero; after the first day, gain minus loss is the price change |
| Indicators.AverageGain | app/services/data_service.py:330 | the rolling average gain is never negative |
| Indicators.AverageLoss | app/services/data_service.py:331 | the rolling average loss is never negative |
| Indicators.RsiOfPositiveLoss | app/services/data_service.py:333-334 | with a positive average loss, 100 − 100/(1 + g/l) equals 100·g/(g + l) |
| Indicators.RsiClosedForm | app/services/data_service.py:333-335 | the RSI is NaN exactly when both averages are 0; otherwise it is 100·g/(g + l), within [0, 100] |
| Indicators.CalculateRsiAt | app/services/data_service.py:323-335 | the series has the prices' length; for fewer than period+1 prices it is all 0; otherwise it lies in [0, 100]; it is 50 before the window fills and where nothing moved; elsewhere it is 100·g/(g + l) |
| Indicators.CalculateRsi | app/services/data_service.py:323-335 | the RSI series is as long as the prices, every value lies in [0, 100], and once there are period+1 prices the warm-up reads 50 |
| Indicators.RsiUndefinedWhenFlat | app/services/data_service.py:329-334 | over a window where the price never changes, the RSI is NaN (and the series shows 50) |
| Indicators.CalculateBollingerBandsAt | app/services/data_service.py:338-355 | fewer prices than the window give three empty lists; otherwise three full-length lists, 0 before the window fills, with middle = window mean and upper/lower = middle ± k·std; a window of 1 leaves upper/lower 0 (NaN std) |
| Indicators.CalculateBollingerBands | app/services/data_service.py:338-355 | fewer prices than the window give three empty lists, otherwise three lists as long as the prices |
| Indicators.SampleStdAt | app/services/data_service.py:346 | a sample standard deviation is non-negative, and 0 exactly when the variance is 0 |
| Indicators.BandsOrdered | app/services/data_service.py:345-349 | with k ≥ 0, lower ≤ middle ≤ upper wherever the window is full |
| Indicators.BandsCollapseWhenFlat | app/services/data_service.py:345-349 | over a flat window all three bands equal the price |
| StrategyEngine.Divide | app/services/strategy_engine.py:46-47 | float64 division: NaN exactly for a NaN operand, 0/0 or inf/inf; a non-zero finite divisor gives the exact quotient; a zero divisor gives an infinity of the numerator's sign; a finite number over an infinity is 0 (also lines 190-192) |
| StrategyEngine.Minus | app/services/strategy_engine.py:46-47 | subtracting 1 shifts a finite value and leaves an infinity or NaN as it is |
| StrategyEngine.SignalsWellFormed | app/services/strategy_engine.py:238-250 | the engine emits the MA, RSI and Bollinger signals in that order, each with confidence in [0.5, 0.85] |
| StrategyEngine.MaAnalyze | app/services/strategy_engine.py:24-87 | the MA signal is named "双均线" with a confidence in [0.5, 0.85], and it is "数据不足" (hold, 0.5) exactly below 25 prices |
| StrategyEngine.RsiAnalyze | app/services/strategy_engine.py:98-153 | the RSI signal is named "RSI" with a confidence in [0.5, 0.85], and it is "数据不足" exactly below 19 prices |
| StrategyEngine.BandAnalyze | app/services/strategy_engine.py:163-225 | the Bollinger signal is named "布林带" with a confidence in [0.5, 0.85], and it is "数据不足" exactly below 25 prices |
| StrategyEngine.MaActionFollowsAverages | app/services/strategy_engine.py:50-80 | MA buys only when the short MA is above the long one, sells only when below, and holds when they are equal |
| StrategyEngine.MaLongTrendNeedsHistory | app/services/strategy_engine.py:47 | below 29 prices the long trend is NaN and "中长期趋势向下" never appears; from 29 on it is NaN only when both long averages are 0, and it is below −2 % exactly when the long average fell by more than 2 % relative to a non-zero past one, or the past one is 0 and the current one negative (−inf) |
| StrategyEngine.TrendRisesIff | app/services/strategy_engine.py:46 | `cur / past − 1 > 0` holds iff `cur` lies beyond a non-zero `past` in its direction, or `past` is 0 and `cur` positive (+inf) |
| StrategyEngine.TrendFallsIff | app/services/strategy_engine.py:47 | `cur / past − 1 < −0.02` holds iff `cur` is below 0.98·`past` for a positive `past`, above it for a negative one, or `past` is 0 and `cur` negative (−inf) |
| StrategyEngine.RisingShortAboveLong | app/services/strategy_engine.py:35-41 | on a strictly rising series the 5-day MA is above the 20-day MA |
| StrategyEngine.RisingShortTrend | app/services/strategy_engine.py:46 | on a strictly rising positive series the short trend is positive |
| StrategyEngine.MaRisingSeriesBuys | app/services/strategy_engine.py:57-80 | a strictly rising positive series makes the MA strategy buy, with confidence at least 0.70 |
| StrategyEngine.ZeroAverageTrendBuys | app/services/strategy_engine.py:44-68 | 21 zero closes then four ones: the short trend is +inf, so the MA strategy buys at 0.70 with "短期均线在上且上升趋势" |
| StrategyEngine.RsiActionFollowsLevel | app/services/strategy_engine.py:123-146 | RSI sells only above 60 and buys only below 40; it sells with 0.85 exactly when the RSI is at least 70 |
| StrategyEngine.RsiFlatSeriesHolds | app/services/strategy_engine.py:111-146 | a flat last 15 days makes the current RSI NaN, and the strategy holds at 0.55 with the detail "RSI=nan，偏弱区域" |
| StrategyEngine.BandTouchDecides | app/services/strategy_engine.py:195-218 | at or over the upper band it sells at 0.85; at or under the lower band it buys at 0.80; any sell or buy needs a touch or a position beyond 0.8 / 0.2 |
| StrategyEngine.BandExpansionNeedsPriorWidth | app/services/strategy_engine.py:190-192 | without a positive previous width (including NaN) the volatility ratio is 1, so the expansion branch (0.70) is never taken |
| StrategyEngine.ZeroMiddleExpands | app/services/strategy_engine.py:188-203 | a zero middle band with the bands apart gives an infinite width: after a finite positive width the ratio is +inf and a position above 0.8 sells at 0.70; after an infinite one it is NaN |
| StrategyEngine.BandPositionInside | app/services/strategy_engine.py:187 | a price strictly inside the bands has a position strictly between 0 and 1 |
| StrategyEngine.BandFlatSeriesSells | app/services/strategy_engine.py:163-225 | over a flat 20-day window the bands collapse onto the price, which then "touches" the upper band: a sell at 0.85 |
| StrategyEngine.Tally | app/services/strategy_engine.py:253-258 | the counting loop yields exactly the vote and confidence-total maps over all signals |
| StrategyEngine.VotesPartition | app/services/strategy_engine.py:253-258 | the three vote counts add up to the number of signals |
| StrategyEngine.ConfidenceTotalWithin | app/services/strategy_engine.py:256-258 | an action's confidence total lies between its votes times the lowest and times the highest confidence |
| StrategyEngine.TallyOfThree | app/services/strategy_engine.py:253-258 | for three signals, the maps hold the per-action counts and sums of those three |
| StrategyEngine.Winner | app/services/strategy_engine.py:261 | no action outranks the winner on (votes, total confidence) |
| StrategyEngine.BestOfOrder | app/services/strategy_engine.py:261 | `max` scans buy, sell, hold and replaces the candidate only when strictly outranked |
| StrategyEngine.WinnerFirstMaximal | app/services/strategy_engine.py:261 | ties go to the earlier key: sell wins only if it strictly beats buy, hold only if it strictly beats both |
| StrategyEngine.WinnerHasVote | app/services/strategy_engine.py:261-264 | with any signal the winner has a vote, so the confidence is its total over its votes |
| StrategyEngine.Fuse | app/services/strategy_engine.py:253-264 | the result keeps the signals; the votes add up to the number of signals; no action outranks the final action; with any signal the final action has a vote and the confidence is its mean |
| StrategyEngine.FusedConfidenceWithin | app/services/strategy_engine.py:264 | the fused confidence lies within any bounds all signal confidences lie in |
| StrategyEngine.MeanConfidenceWithin | app/services/strategy_engine.py:264 | an action with votes has a mean confidence within any bounds its signals lie in |
| StrategyEngine.TieBreakMatchesAverage | app/services/strategy_engine.py:261-264 | with equal votes, the higher total is also the higher average confidence |
| StrategyEngine.Analyze | app/services/strategy_engine.py:238-271 | the result holds the three strategies' signals and their fusion |
| StrategyEngine.AnalyzeConfidence | app/services/strategy_engine.py:238-271 | the winner always has a vote, and the final confidence lies in [0.5, 0.85] |
| StrategyEngine.MajorityExample | app/services/strategy_engine.py:253-264 | buy 0.9, buy 0.6, sell 0.8 gives buy at 0.75 with votes 2/1/0 |
| StrategyEngine.TieBreakExample | app/services/strategy_engine.py:261-264 | one vote each: the sell at 0.95 outranks the buy at 0.9 and wins at 0.95 |
| StrategyEngine.MaFlatSeriesHolds | app/services/strategy_engine.py:57-80 | on a flat series the MA strategy holds at 0.55 with "观望为主" |
| StrategyEngine.FlatSignalsFuse | app/services/strategy_engine.py:253-264 | two holds at 0.55 and one sell at 0.85 fuse to hold at 0.55 with votes 0/1/2 |
| StrategyEngine.FlatSeriesHolds | app/services/strategy_engine.py:238-271 | a flat series yields MA hold 0.55, RSI hold 0.55 and Bollinger sell 0.85, fused to hold at 0.55 with votes 0/1/2 |
| StrategyEngine.AllocationFraction | app/services/strategy_engine.py:279-280 | the fraction is clamped to [0.1, 0.5]: 0.1 up to confidence 0.5, 0.5 from 1.0, linear between |
| StrategyEngine.CalculatePosition | app/services/strategy_engine.py:273-282 | anything but a buy sizes 0; a buy sizes capital times the fraction, to the nearest cent |
| StrategyEngine.PositionBounds | app/services/strategy_engine.py:273-282 | anything but buy sizes 0; a buy sizes 10–50 % of capital, up to rounding to cents |
| StrategyEngine.PositionMonotone | app/services/strategy_engine.py:273-282 | a higher confidence never sizes a smaller buy |
| StrategyEngine.PositionExamples | app/services/strategy_engine.py:273-282 | 10000 at 0.5 buys 1000, at 1.0 buys 5000; a sell sizes 0 |
| DataService.FirstGot | app/services/data_service.py:33-53 | some attempt succeeds iff one of the first n does, and the value is from such an attempt |
| DataService.Retry | app/services/data_service.py:33-53 | the loop stops at the first success, at most three attempts; every earlier attempt failed; it sleeps between failures |
| DataService.SleepsBounded | app/services/data_service.py:50-53 | there are at most two sleeps, fewer than the attempts unless every attempt raised |
| DataService.PeriodConfig | app/services/data_service.py:97-105 | the day count is within 1–365; weekly iff "1w"; an unknown period is ("daily", 180) |
| DataService.PresetName | app/services/data_service.py:56 | a known code maps to its preset name, any other code to itself |
| DataService.FindCode | app/services/data_service.py:39-46 | the row found is the first row carrying the code (`iloc[0]`); none is found only when no row has it |
| DataService.InfoAttempt | app/services/data_service.py:33-53 | an attempt finds a name iff the table has both columns and a row with the code, and the name is that of the first such row; it is no answer when the code column or the code is missing, and an exception otherwise |
| DataService.GetEtfInfo | app/services/data_service.py:31-57 | the name comes from the first successful fetch, else the preset; exchange "沪深" and category "ETF" always |
| DataService.InfoNameOrigin | app/services/data_service.py:31-57 | the name is the preset name or a name some returned table lists for the code |
| DataService.MatchingRows | app/services/data_service.py:187-196 | the entries are exactly those of the rows whose code or name contains the keyword, on "沪深" |
| DataService.FilterPresets | app/services/data_service.py:212-213 | the result holds exactly the presets whose lower-cased code or name contains the lower-cased keyword |
| DataService.FilterPresetsAppend | app/services/data_service.py:213 | the filter keeps preset order and multiplicity: it distributes over concatenation and keeps a single preset iff it matches |
| DataService.MatchingRowsAppend | app/services/data_service.py:187-190 | the live matches keep table order: they distribute over concatenation, one entry per matching row |
| DataService.SearchAttempt | app/services/data_service.py:183-196 | an attempt answers iff the table has both columns (else it raises), with the first min(10, matches) matches |
| DataService.LiveSearchFirstTen | app/services/data_service.py:187-190 | once ten rows have matched, later rows do not change the answer: it is the first ten matches in table order |
| DataService.SearchEtf | app/services/data_service.py:180-213 | a live result when some attempt succeeds, else the filtered presets |
| DataService.LiveSearchBounded | app/services/data_service.py:187-190 | a live result has at most 10 entries, each matching the keyword |
| DataService.EmptyKeywordListsPresets | app/services/data_service.py:212-213 | an empty keyword lists all five presets |
| DataService.UpperCaseKeywordMatches | app/services/data_service.py:212-213 | "ETF" matches all five presets despite the case |
| DataService.RequestFor | app/services/data_service.py:108-109 | the requested range spans twice the period's day count |
| DataService.Tail | app/services/data_service.py:123 | `tail(n)`: the last min(n, len) elements |
| DataService.HistAttempt | app/services/data_service.py:110-125 | an attempt answers iff the fetch returned a non-empty table, with its last rows, at most `days` of them and exactly `days` when the table is that long; it raises iff the fetch threw |
| DataService.FromRows | app/services/data_service.py:125-135 | dates, prices and volumes are the table's columns, row by row |
| DataService.MockBase | app/services/data_service.py:234 | the mock base price lies in [3, 5) |
| DataService.MockHistory | app/services/data_service.py:230-258 | the mock history's period reads "<days>d" and its columns are the mock dates, walk and volumes |
| DataService.MockHistoryShape | app/services/data_service.py:242-250 | dates run day by day up to yesterday, volumes lie in [10⁶, 10⁷), and the walk stays positive |
| DataService.WalkPositive | app/services/data_service.py:246-247 | a walk whose daily changes exceed −100 % stays positive |
| DataService.GetPriceHistory | app/services/data_service.py:89-143 | the first successful fetch's last rows, else the mock history for the period's days |
| DataService.PriceHistoryLength | app/services/data_service.py:122-123 | a live history is non-empty and at most the period's day count long |
| Database.CacheLookup | app/services/llm_service.py:149-151 | the first record with the key (`.first()`), no record before it carrying the key; found iff one exists |
| Database.BarOf | app/models/database.py:125-133 | a missing change percentage is stored as 0 |
| Database.BarAt | app/models/database.py:46-47 | a bar is found for (code, day) iff a row has that key |
| Database.Upsert | app/models/database.py:135 | the merged row is in the table, which grows by at most one row, and no other new row appears |
| Database.MergeRows | app/models/database.py:120-141 | the table grows by at most one row per input, and every new row is the fund's row for some input day |
| Database.LastRowFor | app/models/database.py:124-135 | the last input row for a day, or none when no input row has it |
| Database.PricesFrom | app/models/database.py:151-153 | exactly the stored rows of the fund from the start day on |
| Database.RecordsFor | app/models/database.py:183-184 | exactly the stored records of the fund |
| Database.InsertBy | app/models/database.py:154 | insertion adds exactly the one element |
| Database.SortBy | app/models/database.py:154 | sorting is a permutation |
| Database.Limit | app/models/database.py:185 | a prefix; as long as the limit allows; a negative limit keeps everything |
| Database.PriceQuery | app/models/database.py:151-154 | the result is ordered by day and is a permutation of the fund's rows from the start day |
| Database.DailyQuery | app/models/database.py:183-185 | the result is a prefix of the fund's records sorted newest first, min(`limit`, records) long, and all of them for a negative limit |
| Database.Store.Valid | app/models/database.py:11-61 | the invariant of the tables: unique fund codes, unique (code, date) price keys, unique cache keys, ids below their counters and increasing |
| Database.Store.constructor | app/models/database.py:79-86 | four empty tables satisfying the invariant |
| Database.Store.AddEtf | app/models/database.py:92-110 | a taken code fails with SQLite's unique-key error and changes nothing; a new one is appended |
| Database.Store.GetEtfList | app/models/database.py:112-118 | all funds in table order |
| Database.Store.MergeBar | app/models/database.py:135 | `session.merge`: the row with the same (code, day) is replaced, or the row is appended |
| Database.Store.SavePriceHistory | app/models/database.py:120-141 | the table after merging every input row in order; other tables unchanged |
| Database.Store.GetPriceHistory | app/models/database.py:143-156 | the fund's rows from `today − days` on, ordered by day |
| Database.Store.SaveDailyStrategy | app/models/database.py:158-177 | appends a record under the next id, with advice defaulting to "" and no actual action, amount or remark; returns that fresh id |
| Database.Store.GetDailyStrategies | app/models/database.py:179-187 | the fund's records, newest first, at most `limit` |
| Database.Store.FindCache | app/services/llm_service.py:149-151 | the scan returns `CacheLookup`'s answer: the first cache record with the key, or none |
| Database.Store.InsertCache | app/services/llm_service.py:164-171 | a taken key fails with the unique-key error and changes nothing; otherwise a record under the next id is appended |
| Database.UpsertReplaces | app/models/database.py:135 | merging onto an existing key replaces that row in place |
| Database.UpsertAppends | app/models/database.py:135 | merging a new key appends the row |
| Database.UpsertLookup | app/models/database.py:135 | after a merge the merged key reads the new bar and every other key reads as before |
| Database.MergeLastWins | app/models/database.py:124-135 | after saving, each day of the fund reads the last input row for it, and other keys read as before |
| Database.MergeIdempotent | app/models/database.py:120-141 | saving the same rows twice stores the same bars as saving once |
| Database.InsertKeepsSorted | app/models/database.py:154 | a stable insertion keeps a sorted sequence sorted |
| Database.SortBySorts | app/models/database.py:154 | the sort's result is sorted |
| Database.PriceQueryShape | app/models/database.py:151-153 | the price query holds exactly the fund's rows from the start day |
| Database.DailyQueryShape | app/models/database.py:183-185 | the daily query holds only the fund's stored records, newest first, min(`limit`, records) of them; with a negative limit, all of them |
| LlmService.ApiKey | app/services/llm_service.py:131 | a key is present iff either variable is set and non-empty |
| LlmService.SelectProvider | app/services/llm_service.py:131-139 | DeepSeek/OpenAI exactly when configured and some key is present, with that key; the mock otherwise, including when unset |
| LlmService.MockGenerate | app/services/llm_service.py:106-118 | the buy text iff the prompt contains "买入"; the sell text iff it contains "卖出" but not "买入"; never empty |
| LlmService.Reply | app/services/llm_service.py:30-31 | the mock always answers non-empty; a remote provider without a key answers nothing (also lines 71-72) |
| LlmService.BuildSignalLines | app/services/llm_service.py:192-193 | the loop builds one line per signal, in order |
| LlmService.Prompt | app/services/llm_service.py:184-203 | the prompt opens with the header naming the action and confidence and closes with the fixed instructions |
| LlmService.BuildPrompt | app/services/llm_service.py:184-203 | the prompt is the header, the signal lines and the footer |
| LlmService.CachedResponse | app/services/llm_service.py:145-158 | a reply comes only from an unexpired record with the key; none without a record |
| LlmService.Hit | app/services/llm_service.py:207-208 | a usable hit is a non-empty reply of an unexpired record with the key; there is none without such a key |
| LlmService.RuleBasedAdvice | app/services/llm_service.py:222-249 | never empty; starts with the action's opening; hold and unknown actions get no risk note |
| LlmService.Advisor.constructor | app/services/llm_service.py:124-139 | the provider is the one selected from the configuration |
| LlmService.Advisor.GenerateAdvice | app/services/llm_service.py:176-220 | a usable cache hit is returned; else a provider reply is returned and cached for 24 h under the prompt's key; else the rule-based text; never empty, and only the cache changes |
| LlmService.CachedResponseExact | app/services/llm_service.py:149-155 | with unique keys, a lookup hits exactly while the key's record is unexpired, and returns its reply |
| LlmService.ExpiredEntryBlocksRefresh | app/services/llm_service.py:154-171 | an expired record yields no hit, but its key stays taken, so the new reply is not cached |
| LlmService.FreshEntryLifetime | app/services/llm_service.py:154-168 | a reply cached at t is served exactly while now < t + 86400 |
| LlmService.PromptNamesAction | app/services/llm_service.py:184-188 | the prompt contains the final action's label |
| LlmService.LineNamesAction | app/services/llm_service.py:193 | a signal line contains its signal's label |
| LlmService.SignalLinesNameActions | app/services/llm_service.py:192-193 | the lines contain every signal's label |
| LlmService.MockBuysOnAnyBuySignal | app/services/llm_service.py:108-111 | the mock answers the buy text whenever the final action or any signal is a buy |
| LlmService.MockSellNeverHolds | app/services/llm_service.py:108-118 | for a sell decision the mock never answers the hold text |
| LlmService.RuleBasedAdviceExamples | app/services/llm_service.py:228-249 | a strong buy and an unknown action give the expected full texts |
| StrategyApi.PriceWithTimeout | app/api/strategy.py:17-29 | a timeout or failure gives empty dates and the reason as the error; completion passes the data through |
| StrategyApi.DegradedResponse | app/api/strategy.py:41-57 | "等待", amount 0, three hold signals at 0.5, and the error or "暂无数据" as the warning |
| StrategyApi.GetStrategy | app/api/strategy.py:33-82 | without dates the degraded answer and no store change; otherwise the code and date echoed, the fused signals, votes, label, confidence, the amount for 10000, and the advice text and cache table exactly as `generate_advice` leaves them (`AdviceOutcome`) |
| StrategyApi.OrDash | app/api/strategy.py:99 | `x or '-'`: the value when non-empty, else "-" |
| StrategyApi.HistoryRowOf | app/api/strategy.py:93-100 | formatting fails iff a truthy actual action has no amount; the amount shows only when non-zero; no actual action shows "-" |
| StrategyApi.HistoryRows | app/api/strategy.py:91-100 | one row per record, or failure when any record fails |
| StrategyApi.GetStrategyHistory | app/api/strategy.py:86-104 | the rows of the newest `days` records, or none when any fails to format |
| StrategyApi.FollowedCount | app/api/strategy.py:125 | at most the total; 0 iff no record has a truthy actual action |
| StrategyApi.PerformanceOf | app/api/strategy.py:113-139 | total is the record count; followed and not followed split it; accuracy is 0 |
| StrategyApi.GetPerformance | app/api/strategy.py:108-141 | the performance of the newest `days` records |
| StrategyApi.RecordAction | app/api/strategy.py:145-163 | answers "记录成功" and appends a record with the action as the final action, while the actual action, amount and remark are dropped |
| StrategyApi.StoredRecordsShowNoActual | app/api/strategy.py:98-99 | stored records always show "-" as the actual action and remark |
| StrategyApi.NothingEverFollowed | app/api/strategy.py:125-126 | over stored records, followed is always 0 and not followed is the count |
| StrategyApi.ConsistencyWord | app/api/strategy.py:185 | "较强" iff above 0.7, "中等" iff in (0.5, 0.7], "较弱" iff at most 0.5 |
| StrategyApi.GenerateLlmAdvice | app/api/strategy.py:173-196 | a text iff the action is one of the three labels (else the lookup raises), starting with "当前" |
| StrategyApi.TemplateAdviceClosing | app/api/strategy.py:189-194 | the text ends with its action's closing, and the hold closing belongs to "持有" alone |
| EtfApi.EntriesOf | app/api/etf.py:29-36 | one entry per fund, in order, with its code and name and no price or change |
| EtfApi.GetEtfList | app/api/etf.py:12-40 | the two default entries when nothing is registered, else the funds' entries |
| EtfApi.InfoAfterWait | app/api/etf.py:43-52 | a timeout or failure falls back to the preset name on "沪深"/"ETF" |
| EtfApi.NameToStore | app/api/etf.py:71-72 | the fetched name when non-empty, else the preset name |
| EtfApi.HandlerReply | app/api/etf.py:83-86 | a unique-key error answers "ETF已存在"; any other error is a 500 with its text |
| EtfApi.Insert | app/models/database.py:103-108 | an insert of a taken code leaves the table as it was |
| EtfApi.AddOutcome | app/api/etf.py:55-86 | a bad code is a 500 carrying "400: …"; a known code answers "ETF已存在"; a new code is appended under its name; a concurrent insert of the same code answers "ETF已存在" |
| EtfApi.AddEtf | app/api/etf.py:55-86 | the registry and reply are those of `AddOutcome`; other tables unchanged |
| EtfApi.AddIdempotent | app/api/etf.py:63-66 | registering a code again leaves the registry unchanged and answers "ETF已存在" |
| EtfApi.AddKeepsCodesUnique | app/api/etf.py:55-86 | registration keeps fund codes unique, even with a concurrent insert |
| EtfApi.RaceAnswersRegistered | app/api/etf.py:83-85 | losing the race to an insert of the same code still answers "ETF已存在" |
| EtfApi.AddedFundListed | app/api/etf.py:29-36 | a newly registered code is listed last, under the name it was stored with |
| EtfApi.CodeValidationExamples | app/api/etf.py:60 | "510300" passes; five digits, seven digits, a letter or the empty code fail |
| EtfApi.FallbackNames | app/api/etf.py:52 | without a fetch, "512880" is stored as "证券ETF" and "123456" as itself |

## Left out

**Outside the model**
- Network calls are given outcomes, not performed. These are akshare and the DeepSeek/OpenAI HTTP requests: their payloads, headers, status handling and timeouts.
- Thread pools and asyncio waits are represented only by their outcome.
- Concurrency appears as one concurrent registration, the `racer` of `EtfApi.AddEtf`. It does not cover other interleavings or SQLite's locking.
- Realtime quotes and the intraday mock are not modelled. These are `get_realtime_price`, `_generate_mock_price` and the intraday series, together with the `/etf/{code}/realtime` and `/etf/{code}/info` routes that only forward them.
- `to_dataframe` is not part of this model.
- The stub routes `update_record` and `remove_etf` change nothing and are not modelled.
- The `config`, `added_date` and `created_at` columns are not modelled, nor is the session life cycle.
- The wiring in app/api/data.py and the FastAPI application setup are not part of this model.

**Arithmetic and text**
- Floating point is modelled as exact real arithmetic. `round(x, 2)`, `round(x, 3)`, `:.0f`, `:.1f` (the RSI detail) and `:.0%` (the prompt's confidences) are modelled as rounding half up, where Python rounds half to even on the binary value.
- The sign of a zero is not tracked: a zero divisor counts as +0, so x/0 takes the sign of x. Overflow to infinity is not modelled; infinities arise only from division by zero.
- The sample standard deviation is a parameter, `stdOf`, constrained by `IsSampleStd` only where a property needs it. The square root itself is not computed.
- Dates are day numbers, and timestamps are seconds. The `strftime` formats are not modelled.
- `str.contains` in the live search treats the keyword as a regular expression. The model treats it as a plain substring.
- `str.lower` and `str.isdigit` are modelled for ASCII only. Python also lower-cases and accepts non-ASCII letters and digits.
- `hash(code)`, the random draws and md5 are parameters of the operations that use them.

**Advice and storage**
- LlmService.Advisor.GenerateAdvice: takes the engine's result rather than a dictionary. So the `.get` defaults for a missing action (持有) or confidence (0.5) are not modelled; the route always passes a complete result.
- LlmService.Advisor.GenerateAdvice: the cache insert reads the clock a second time for its expiry. The model uses the one `now` of the lookup for both.
- LlmService.Advisor.GenerateAdvice: errors raised inside the cache lookup and the cache insert are swallowed by the source. The model covers only the unique-key failure.
- StrategyApi.GenerateLlmAdvice: the printed votes dictionary is the parameter `votesText`. Its Python `repr` is not modelled.
- Database.Store: the model covers no database failure other than a duplicate key.
- Database.Store.GetDailyStrategies: records of the same day keep table order. SQLite leaves that order unspecified.
- Database.Store.GetEtfList: the funds are listed in insertion order. The query has no ORDER BY, so SQL does not promise any order; SQLite's rowid scan gives insertion order. `EtfApi.AddedFundListed` ("listed last") rests on the same assumption.
- StrategyApi.GetStrategy: the route's catch-all 500 is not modelled. No modelled step raises once dates are present.
