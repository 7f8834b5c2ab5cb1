# KOL sentiment scoring — a Dafny model

This project models the scoring side of a small system. The system tracks
stock calls made by "key opinion leaders" (KOLs) and scores them against the
market. The model covers five parts:

- **YFinance** (`helper.dfy`): the rate-limited market-data fetcher
  `YFinanceHelper`. It is a class whose methods update its cache files, its
  clock, its request counter and its logs of calls, pauses and fetches. It
  covers the library-capability probe and the download arguments, the
  24-hour pickle cache, the retry loop with exponential back-off on rate
  limits, the price-on-date lookup, the two batch strategies and cache
  purging.
- **YFinanceConfig** (`config.dfy`): the rate-limit constants and the table
  of recommended configurations per usage type.
- **KolSentiment** (`sentiment.dfy`): the forward returns 1, 3 and 10 rows
  after a prediction, and the price lookup the sentiment store uses.
- **KolAccuracy** (`accuracy.dfy`): the direction rule and the per-KOL and
  per-label hit tallies.
- **KolPerformanceMetrics** (`performance.dfy`): mean, sample volatility,
  Sharpe and information ratios; the per-KOL aggregation; and the ranking
  `get_top_performers`, modelled as an in-place sort of an array.
- **KolGradeSystem** (`grade.dfy`): the composite 0–100 grade and how it is
  attached to every KOL's metrics.

Two more files hold shared types. `common.dfy` has the option type, the
small text functions (lower-casing, suffix test, number and date rendering)
and price series. `records.dfy` has a stored prediction record.

The `p3/` directory holds byte-identical copies of three files:
`kol_performance_metrics.py`, `kol_grade_system.py` and
`yfinance_config.py`. One model serves both copies, and a few rows below
cite the `p3/` copy. `kol_performance_metrics.py` carries its own copy of
`is_direction_correct` (lines 166-184), identical to the one in
`kol_accuracy.py`. The model uses `KolAccuracy.IsDirectionCorrect` for both.

How the model represents the outside world:

- Time is a real number of seconds (`now`). A day is an integer. A target
  date for a price lookup is a `Moment`: its day, and whether its time of
  day is past midnight.
- A price series is a sequence of `(day, close)` bars.
- The cache directory is a map from file name to file, holding an mtime and
  either a readable series or an unreadable one.
- The market-data service is a fixed table, a value of type `Upstream`. It
  maps each request (the tickers, the dates and the request's sequence
  number) to an answer: rows, an exception message, or a frame. A request
  the table does not list gets an empty answer.
- `random.random()` is the stream `draw` of values in [0, 1).
- Square roots are a parameter `sqrt` that satisfies `IsSqrt`.

## Model

| member | source | states |
|---|---|---|
| `YFinance.YFinanceHelper.constructor` | yfinance_helper.py:19-41 | the helper starts with the given cache, clock and delay range, empty logs and a session; its capability flags are the probe's; the delay range defaults to [0.5, 2.0] |
| `YFinance.CompatibilityFlags` | yfinance_helper.py:63-76 | a failed signature probe disables both optional arguments; otherwise each flag is whether `yf.download` accepts that argument |
| `YFinance.Adapt` | yfinance_helper.py:78-89 | the adapted arguments are the base ones plus `show_errors=False` exactly when supported, plus the session exactly when supported and present; every other base argument is unchanged |
| `YFinance.YFinanceHelper.DownloadKwargs` | yfinance_helper.py:78-89 | the arguments of a download are the base ones adapted to the helper's capabilities |
| `YFinance.CachePath` | yfinance_helper.py:91-94 | the cache file name ends in `.pkl` |
| `YFinance.CachePathInjective` | yfinance_helper.py:91-94 | two cache file names are equal only for the same ticker, start date and end date |
| `YFinance.Lookup` | yfinance_helper.py:96-112 | a hit is the data of the file under the key's name; a file at least `CacheTtlSeconds` old is a miss |
| `YFinance.LookupHitIsFresh` | yfinance_helper.py:96-112 | a cache read succeeds exactly when the file exists, is readable and is less than 24 hours old |
| `YFinance.MissStaysMiss` | yfinance_helper.py:100-104 | a cache miss stays a miss as time passes |
| `YFinance.Store` | yfinance_helper.py:114-123 | the key's file holds the series with the current time as its mtime; every other file is unchanged |
| `YFinance.LookupAfterStore` | yfinance_helper.py:114-123 | a series written to the cache is read back unchanged at the same moment |
| `YFinance.LookupOtherKey` | yfinance_helper.py:116-120 | writing one key's file leaves every other key's reads unchanged |
| `YFinance.YFinanceHelper.SaveToCache` | yfinance_helper.py:114-123 | the file for the key is (over)written with the series and the current time; nothing else changes |
| `YFinance.LerpBetween` | yfinance_helper.py:125-128 | a uniform draw scaled to [lo, hi] lies between the bounds |
| `YFinance.YFinanceHelper.RandomDelay` | yfinance_helper.py:125-128 | one jitter pause is logged and one draw is used; the clock advances by that draw scaled to [delay_min, delay_max], so the sleep lies between the bounds |
| `YFinance.FirstSuccessSpec` | yfinance_helper.py:150-173 | the retry loop stops at the first attempt that returns a non-empty frame, and at no earlier attempt |
| `YFinance.RetryResultSpec` | yfinance_helper.py:169-191 | get_stock_data's download returns data exactly when some attempt succeeds, and what it returns is non-empty |
| `YFinance.RetryResult` | yfinance_helper.py:150-191 | a series returned by the retry loop is non-empty |
| `YFinance.FirstSuccessOutcome` | yfinance_helper.py:169-173 | when attempt i is the first success, i + 1 attempts are used and its rows are returned |
| `YFinance.NoSuccessOutcome` | yfinance_helper.py:183-191 | when no attempt succeeds, every attempt is used and the result is None |
| `YFinance.AttemptsUsed` | yfinance_helper.py:150 | the loop makes at most `max_retries` attempts, and at least one when any are allowed |
| `YFinance.OneJitterPerRetry` | yfinance_helper.py:154-156 | k attempts produce exactly k - 1 jitter pauses: one before every attempt but the first |
| `YFinance.ReplyPausesNoJitter` | yfinance_helper.py:174-188 | the sleep after a reply is never a jitter pause |
| `YFinance.BackoffOnlyOnRateLimit` | yfinance_helper.py:177-188 | an exponential back-off follows attempt a exactly when that attempt raised a rate-limit error |
| `YFinance.RetryHasNoBatchWait` | yfinance_helper.py:150-188 | the retry loop never makes a between-batches pause |
| `YFinance.YFinanceHelper.Attempt` | yfinance_helper.py:150-168 | one attempt logs one request with the adapted arguments, caches a non-empty answer, and stops the loop exactly on a non-rate-limit error at the last attempt |
| `YFinance.YFinanceHelper.HandleReply` | yfinance_helper.py:169-188 | a non-empty answer is cached; an empty answer or an error logs the pauses the source sleeps; a rate-limit error sleeps between 2^attempt + 1 and 2^attempt + 3 seconds, another error one second unless it is the last attempt; the loop stops exactly on a final non-rate-limit error |
| `YFinance.YFinanceHelper.RetryAttempt` | yfinance_helper.py:150-188 | attempt number `attempt` gets the upstream's reply number `attempt`, and extends the request and pause logs by that attempt's share; a first success fixes the loop's result and is then cached; a stop ends it with None |
| `YFinance.YFinanceHelper.DownloadWithRetries` | yfinance_helper.py:149-191 | the download returns the first successful answer of the upstream's replies, or None; what it returns is cached, and its requests and pauses are those of the retry specification |
| `YFinance.YFinanceHelper.GetStockData` | yfinance_helper.py:130-191 | a fresh cache entry is returned with no request; otherwise the retrying download runs; a returned series is non-empty and is now cached; a None leaves the cache unchanged; `max_retries` defaults to 3 |
| `YFinance.FirstExact` | yfinance_helper.py:217-219 | the first row whose date equals the target, or None when no row has that date |
| `YFinance.Nearest` | yfinance_helper.py:221-224 | the first row whose distance in whole days to the target is smallest; the day count is floored, so a target past midnight shifts every difference down by one |
| `YFinance.PickRow` | yfinance_helper.py:213-224 | the row picked lies in the series; whenever some row is dated on the target day, it is the first such row |
| `YFinance.PickRowIsFirstNearest` | yfinance_helper.py:213-224 | with no row on the target day, or a target at midnight, the row picked is the first nearest one |
| `YFinance.LateTargetLeansForward` | yfinance_helper.py:221-224 | the floored day count at work: with rows on days 4 and 7, a target on day 5 past midnight takes the day-7 close, at midnight the day-4 close |
| `YFinance.PriceOnDate` | yfinance_helper.py:213-226 | a price exists exactly when the fetched series is non-empty, and it is the close of one of its rows |
| `YFinance.YFinanceHelper.GetStockPriceOnDate` | yfinance_helper.py:193-226 | one fetch of the window of `days_buffer` days around the target's day; the price is PriceOnDate of what that fetch returned; on a fresh cache entry no request, no pause and no cache write; otherwise the retries' requests and pauses, and the series, when one came back, written under the window's key; `days_buffer` defaults to 5 |
| `YFinance.Batches` | yfinance_helper.py:260-261 | no batches exactly when there are no tickers, and never more batches than tickers |
| `YFinance.BatchesCover` | yfinance_helper.py:260-261 | the batches, concatenated, are the ticker list in order |
| `YFinance.BatchesBounded` | yfinance_helper.py:346-347 | every batch is non-empty and holds at most `batch_size` tickers |
| `YFinance.BatchesCount` | yfinance_helper.py:346 | the number of batches is the ticker count divided by the batch size, rounded up |
| `YFinance.CacheHitsSpec` | yfinance_helper.py:269-273 | the cache pass adds exactly the batch's tickers that have a fresh cache entry, with the cached series |
| `YFinance.MissesSpec` | yfinance_helper.py:266-275 | the uncached list holds exactly the batch's tickers that have no fresh cache entry |
| `YFinance.YFinanceHelper.SplitByCache` | yfinance_helper.py:266-275 | the loop over the batch produces the cache hits and the misses, in batch order, and adds only non-empty series to the results |
| `YFinance.FromColumnsSpec` | yfinance_helper.py:304-319 | the multi-ticker branch keeps a ticker exactly when it was requested and its column is non-empty |
| `YFinance.YFinanceHelper.SaveColumns` | yfinance_helper.py:306-317 | each kept column goes into the results and is written to the cache |
| `YFinance.BulkOutcome` | yfinance_helper.py:287-321 | the results keep every cache hit and gain only tickers that were requested |
| `YFinance.YFinanceHelper.KeepFrame` | yfinance_helper.py:287-321 | an empty frame adds nothing and writes nothing; a single miss takes the whole frame; several misses take their columns; the cache writes are exactly `FrameFiles` |
| `YFinance.YFinanceHelper.DownloadMisses` | yfinance_helper.py:280-331 | one multi-ticker request for the misses; a frame is kept with the cache writes of `FrameFiles`, no pause and no time passing; on an exception, get_stock_data runs for each miss in order; either way only the misses' cache files can change, and every series kept is the one its file holds |
| `YFinance.CollectKeys` | yfinance_helper.py:327-331 | the per-ticker fallback adds only tickers it fetched |
| `YFinance.YFinanceHelper.FetchOne` | yfinance_helper.py:350-356 | one get_stock_data call; the series is kept when there is one; a cache hit makes no request and no write, a miss makes the retries' requests; only the ticker's own cache file can change, and a series kept is the one that file then holds; one random delay follows, so the last pause is a jitter pause |
| `YFinance.YFinanceHelper.FetchKeep` | yfinance_helper.py:351-353 | the get_stock_data half of one pass: the same results, requests and cache writes as `FetchOne`, before the random delay |
| `YFinance.CachedInUpdate` | yfinance_helper.py:114-123 | writing one ticker's file keeps every other ticker's cached series, so results that matched the cache still match it after the new series is added |
| `YFinance.CacheHitsCached` | yfinance_helper.py:269-273 | every series the cache pass adds is the one its ticker's file holds |
| `YFinance.ColumnsCached` | yfinance_helper.py:306-317 | the column writes touch only the uncached tickers' files, and every kept column is the one its file then holds |
| `YFinance.FrameCached` | yfinance_helper.py:287-321 | what a frame for the misses writes touches only the misses' files, and every series the batch keeps is the one its file holds |
| `YFinance.YFinanceHelper.FetchEach` | yfinance_helper.py:327-331 | get_stock_data for every ticker in order; the results are those fetches collected; only the fetched tickers' cache files can change, and results that matched the cache still match it; at least one jitter pause per ticker |
| `YFinance.YFinanceHelper.BulkBatch` | yfinance_helper.py:261-331 | a batch with no misses makes no request, no pause and no cache write; otherwise exactly one multi-ticker request for the misses, whose frame (with the writes of `FrameFiles`, no pause, no time passing) or fallback decides the results; only the batch's cache files can change, and every series kept is the one its file holds |
| `YFinance.YFinanceHelper.PauseAfterBatch` | yfinance_helper.py:333-336 | given a non-negative delay, a between-batches pause of `delay` seconds exactly when more batches follow |
| `YFinance.YFinanceHelper.BulkRound` | yfinance_helper.py:261-336 | one bulk batch of `tickers[i..next]` then its pause; the misses are that batch's; the results are the cache hits when nothing is missing, the frame's outcome on a frame, and the collected fallback fetches on an exception; only the batch's cache files can change, and every series kept is the one its file holds |
| `YFinance.YFinanceHelper.IndividualRound` | yfinance_helper.py:348-361 | one batch of per-ticker fetches then its pause; the results extend the collected fetches; only the batch's cache files can change, and every series kept is the one its file holds |
| `YFinance.YFinanceHelper.BatchDownloadBulk` | yfinance_helper.py:254-338 | the batches are the ticker list cut into `batch_size` pieces; results are non-empty series of requested tickers, each the one its cache file holds; only the requested tickers' cache files can change; one between-batches pause per batch but the last |
| `YFinance.YFinanceHelper.BatchDownloadIndividual` | yfinance_helper.py:340-363 | every ticker is fetched once, in order; the results are exactly the non-empty fetches, each the one its cache file holds; only the requested tickers' cache files can change; one between-batches pause per batch but the last |
| `YFinance.YFinanceHelper.BatchGetStockData` | yfinance_helper.py:228-252 | either strategy returns non-empty series of requested tickers, each the one its cache file holds, changes only the requested tickers' cache files, and makes one pause per batch but the last; the defaults are 10 tickers per batch, 3 seconds between batches and the bulk strategy |
| `YFinance.Purge` | yfinance_helper.py:378-383 | a file is removed exactly when its name ends in `.pkl` and it was modified before the cutoff; kept files are unchanged |
| `YFinance.PurgeKeepsFreshEntries` | yfinance_helper.py:375 | purging files older than at least a day never turns a cache hit into a miss |
| `YFinance.YFinanceHelper.ClearCache` | yfinance_helper.py:365-385 | the cache becomes its purge at `now - days * 86400`; the count returned is the number of files removed; `older_than_days` defaults to 7 |
| `YFinanceConfig.Table` | p3/yfinance_config.py:157-182 | the table has exactly the four usage types light, normal, heavy and batch |
| `YFinanceConfig.GetRecommendedConfig` | yfinance_config.py:147-184 | a known usage type gets its table entry; any other string gets the normal entry; `usage_type` defaults to "normal" |
| `YFinanceConfig.EveryConfigWellFormed` | yfinance_config.py:158-181 | every configuration the lookup can return, for any string, has 0 < min delay < max delay, a positive batch size and at least one retry |
| `YFinanceConfig.HeavierUsageWaitsLonger` | yfinance_config.py:158-181 | along light, normal, heavy, batch the delays never shrink and the retries never fall |
| `YFinanceConfig.UnknownUsageIsNormal` | yfinance_config.py:184 | lookup is case-sensitive: "Light" and "" fall back to normal, "batch" does not |
| `YFinanceConfig.RateLimitMatchesNormal` | yfinance_config.py:6-20 | the normal entry, which a call with no argument returns, equals the rate-limit constants; the configured cache lifetime in hours is the fetcher's `CacheTtlSeconds`; 429 is a retried status and a "429" message counts as a rate limit |
| `KolSentiment.HorizonReturn` | KOLSentiment.py:84-98 | the h-row return exists exactly when the history has more than h rows, and it recovers the close at row h from the initial price |
| `KolSentiment.CalculateReturns` | KOLSentiment.py:77-100 | each of the 1-, 3- and 10-row returns is present exactly when a history exists with more rows than that offset |
| `KolSentiment.ReturnsPresence` | KOLSentiment.py:77-100 | each of the 1-, 3- and 10-row returns exists exactly when the history is longer than that offset, and each recovers the close at its row |
| `KolSentiment.ReturnsNested` | KOLSentiment.py:84-98 | a 10-day return implies a 3-day return, which implies a 1-day return |
| `KolSentiment.ShortHistoryHasNoReturns` | KOLSentiment.py:77-80 | a missing history, or one with fewer than two rows, gives no return at all |
| `KolSentiment.FetchReturns` | KOLSentiment.py:70-100 | one fetch from the prediction day to 20 days later; the returns are the horizon rule applied to what it returned; the fetcher's requests, pauses and cache writes are those of get_stock_data for that window |
| `KolSentiment.GetStockPrice` | KOLSentiment.py:57-68 | the price is the fetcher's price at the given moment, or None; the fetcher's requests, pauses and cache writes are those of get_stock_data for the 5-day window |
| `KolAccuracy.IsDirectionCorrect` | kol_accuracy.py:1-19 | the result is 0 or 1 |
| `KolAccuracy.DirectionRule` | kol_accuracy.py:12-19 | a call is right exactly when an up call meets a rise, a down call a fall, or a flat call a move under 0.01 in absolute value; any other label is never right |
| `KolAccuracy.DirectionBoundaries` | kol_accuracy.py:12-17 | a zero return is right only for a flat call; a move of exactly ±0.01 is not flat |
| `KolAccuracy.DirectionIgnoresCase` | kol_accuracy.py:12-16 | any two labels with the same lower-cased form score alike, for every return |
| `KolAccuracy.CapitalisedLabels` | kol_accuracy.py:12-16 | "Positive", "NEGATIVE" and "Neutral" score as their lower-case forms |
| `KolAccuracy.DocumentedCases` | kol_accuracy.py:148-155 | the six example scenarios get the verdicts their descriptions state |
| `KolAccuracy.ScoreOf` | kol_accuracy.py:35-37 | a horizon's score is present exactly when its return is, and is then the direction verdict |
| `KolAccuracy.CalculateAccuracyScore` | kol_accuracy.py:21-40 | each horizon's score is None exactly when its return is None |
| `KolAccuracy.AccuracyScoreIsDirectionRule` | kol_accuracy.py:34-38 | a present score is the direction rule applied to that horizon alone, whatever the other horizons hold |
| `KolAccuracy.Tally` | kol_accuracy.py:54-82 | the total never exceeds the number of records |
| `KolAccuracy.WithAccuracy` | kol_accuracy.py:84-89 | the counts are unchanged; with a positive total each accuracy times the total is its hit count; with none the stats are unchanged |
| `KolAccuracy.TallyBounds` | kol_accuracy.py:69-82 | each horizon's hit count is at most the number of counted predictions |
| `KolAccuracy.EmptyTally` | kol_accuracy.py:58-67 | a key with no counted prediction has all-zero counters |
| `KolAccuracy.AccuracyInUnitInterval` | kol_accuracy.py:84-89 | every reported accuracy lies in [0, 1] |
| `KolAccuracy.MissingHorizonCountsAsWrong` | kol_accuracy.py:76-89 | a record with a 1-day return but no 3- or 10-day return raises the total and leaves those hit counts unchanged |
| `KolAccuracy.BucketTotals` | kol_accuracy.py:109-115 | the three label buckets together count exactly the records that have a 1-day return and a recognised label |
| `KolAccuracy.CountPerKol` | kol_accuracy.py:52-82 | a KOL appears exactly when it has a record with a 1-day return; its counters are the tally of its records |
| `KolAccuracy.GetKolPerformanceStats` | kol_accuracy.py:42-91 | the same keys, each with its tally and the accuracies `correct / total` |
| `KolAccuracy.CountPerLabel` | kol_accuracy.py:103-127 | exactly the three labels are present, each with the tally of its records |
| `KolAccuracy.AnalyzeSentimentAccuracy` | kol_accuracy.py:93-136 | the three labels, each with its tally and its accuracies (0 for an empty bucket) |
| `KolPerformanceMetrics.SampleVariance` | kol_performance_metrics.py:146-149 | the sample variance (divisor n - 1) is non-negative |
| `KolPerformanceMetrics.SquaredDeviationsNonNegative` | p3/kol_performance_metrics.py:146-149 | the sum of squared deviations from any centre is non-negative |
| `KolPerformanceMetrics.CalculatePeriodMetrics` | kol_performance_metrics.py:128-164 | no returns give all zeros; the mean times the count is the sum; one return gives a NaN volatility; the Sharpe ratio times a positive volatility is the excess mean; with no positive volatility both ratios are 0 |
| `KolPerformanceMetrics.SharpeAboveInformationRatio` | kol_performance_metrics.py:148-157 | the volatility is positive exactly when there are at least two returns with positive sample variance, and then the Sharpe ratio exceeds the information ratio |
| `KolPerformanceMetrics.SingleObservation` | kol_performance_metrics.py:146-157 | a single return yields its own mean, a NaN volatility and zero ratios |
| `KolPerformanceMetrics.Accumulate` | kol_performance_metrics.py:66-91 | the count never exceeds the number of records |
| `KolPerformanceMetrics.MetricsOf` | kol_performance_metrics.py:93-126 | the KOL's name and count are kept, no grade is set, and the rate times the count is the number of hits |
| `KolPerformanceMetrics.AccumulateShape` | kol_performance_metrics.py:79-91 | the 1-day list has one entry per counted record; the 3- and 10-day lists are no longer; the count and the hits agree with the per-KOL accuracy tally, and the hits are at most the count |
| `KolPerformanceMetrics.AccumulatePresence` | kol_performance_metrics.py:66-79 | a KOL is counted exactly when it has a record with a 1-day return |
| `KolPerformanceMetrics.RateInUnitInterval` | kol_performance_metrics.py:96-101 | the direction-correctness rate of a reported KOL lies in [0, 1] |
| `KolPerformanceMetrics.AccumulatePerKol` | kol_performance_metrics.py:64-91 | the loop's per-KOL accumulators are exactly the per-KOL folds of the records |
| `KolPerformanceMetrics.CalculateKolPerformanceMetrics` | kol_performance_metrics.py:54-126 | a KOL is reported exactly when it has a record with a 1-day return, with the metrics of its accumulated returns |
| `KolPerformanceMetrics.SliceLength` | kol_performance_metrics.py:251 | the length of `performers[:top_n]`, including a negative `top_n` |
| `KolPerformanceMetrics.CollectPerformers` | kol_performance_metrics.py:243-246 | one distinct `(kol, value)` pair per KOL, each carrying that KOL's metric |
| `KolPerformanceMetrics.Sink` | kol_performance_metrics.py:249 | one insertion step: the sorted prefix grows by one, as a permutation of the array, and the elements after position `i` are untouched |
| `KolPerformanceMetrics.SortDescending` | kol_performance_metrics.py:249 | the array ends sorted by value, descending, as a permutation of its contents |
| `KolPerformanceMetrics.PermutationKeepsDistinct` | kol_performance_metrics.py:249 | reordering keeps the pairs distinct |
| `KolPerformanceMetrics.PermutationKeepsPairs` | kol_performance_metrics.py:249 | reordering keeps every pair's metric and every KOL present |
| `KolPerformanceMetrics.DistinctKols` | p3/kol_performance_metrics.py:243-249 | distinct pairs that each carry their KOL's metric name every KOL at most once |
| `KolPerformanceMetrics.PrefixKeeps` | kol_performance_metrics.py:251 | a prefix of the ranking is still descending, still carries true metrics, still has each KOL at most once |
| `KolPerformanceMetrics.LeftOutRanksLower` | kol_performance_metrics.py:249-251 | every KOL left out of the top slice has a value no greater than every value kept |
| `KolPerformanceMetrics.GetTopPerformers` | kol_performance_metrics.py:220-251 | an invalid metric name is an error exactly when it is not one of the ten; otherwise the slice length of pairs, descending, each KOL once with its true value, and no left-out KOL ranks higher; the defaults are `direction_correctness_rate` and 5 |
| `KolGradeSystem.RoundHalfEven` | kol_grade_system.py:29 | the nearest integer, a tie going to the even one |
| `KolGradeSystem.RoundHalfEvenMonotone` | kol_grade_system.py:29 | rounding never reverses an order |
| `KolGradeSystem.RoundHalfEvenOfInteger` | kol_grade_system.py:29 | an integer rounds to itself |
| `KolGradeSystem.Round2` | kol_grade_system.py:29 | `round(x, 2)` is a multiple of 0.01 within 0.005 of x |
| `KolGradeSystem.Round2Monotone` | kol_grade_system.py:29 | two-decimal rounding never reverses an order |
| `KolGradeSystem.Round2OfHundredths` | kol_grade_system.py:29 | a value already on the 0.01 grid is unchanged |
| `KolGradeSystem.SampleScore` | kol_grade_system.py:24 | capped at 1, reached exactly when the count reaches the norm; below it the count divided by the norm |
| `KolGradeSystem.SampleScoreMonotone` | kol_grade_system.py:24 | more samples never lower the sample score |
| `KolGradeSystem.SharpeScore` | kol_grade_system.py:26 | in [0, 1]: 0 for a non-positive Sharpe ratio, 1 from 2 upward, half the ratio between |
| `KolGradeSystem.CalculateKolGrade` | kol_grade_system.py:1-29 | the grade is the weighted sum times 100, rounded to two decimals: on the 0.01 grid and within 0.005 of the raw value |
| `KolGradeSystem.GradeInRange` | kol_grade_system.py:1-22 | with the default weights, an accuracy in [0, 1] and a non-negative sample count, the grade lies in [0, 100] |
| `KolGradeSystem.WeightedSumMonotone` | p3/kol_grade_system.py:28 | with non-negative weights the weighted sum rises with each factor |
| `KolGradeSystem.GradeMonotone` | kol_grade_system.py:24-29 | with non-negative weights the grade never falls when accuracy, Sharpe ratio or sample count rises |
| `KolGradeSystem.PerfectGrade` | kol_grade_system.py:5-29 | full accuracy, a Sharpe ratio of 2 and 50 samples earn exactly 100 |
| `KolGradeSystem.AddGradeToPerformance` | kol_grade_system.py:31-43 | every entry, and only its grade, is set from its 1-day rate, 1-day Sharpe ratio and prediction count; no entry is added or removed |
| `KolGradeSystem.ReportedGradeInRange` | kol_grade_system.py:35-42 | every KOL that the metrics calculation reports gets a grade in [0, 100] |

## Left out

- The network, `requests.Session` and its `Retry` adapter (yfinance_helper.py:43-61), and `yf.download` itself. They are replaced by the `Upstream` answer table. The probe of `yf.download`'s signature is the `Probe` parameter.
- The file system. `os.makedirs`, `os.path.exists`, pickling and `os.listdir` become the `files` map. An unreadable pickle is a file without data. `clear_cache`'s early return when the directory does not exist is the empty map.
- Printing. The model has no output. `clear_cache` prints how many files it removed; `YFinance.YFinanceHelper.ClearCache` returns that count instead.
- Dates, `strftime` and the pandas index. Days are integers, and a cache file name is the ticker and two integers rendered as text. A frame is a sequence of bars. A multi-ticker frame is a map from ticker to column. The `date_diff` column that get_stock_price_on_date adds to the frame is not modelled.
- Floating point. All arithmetic is on reals. `np.std` is the square root given by `sqrt`. A single return's volatility is an explicit NaN value. `round` is half-to-even on exact reals.
- `threads=True` and any concurrency inside `yf.download`.
- Exceptions the model cannot raise. The `try` blocks around calculate_returns and get_stock_price, and around the cache read and write, have nothing to catch. The per-ticker `except` in the multi-ticker branch (yfinance_helper.py:318-319) cannot fire, because splitting a modelled frame cannot fail. An exception from the bulk download is modelled as a reply of the `Upstream` table.
- Wall-clock time. `random.uniform` and `time.sleep` become the `draw` stream, the pause log and the clock `now`. The model states how long each sleep is, but not the time the work between sleeps takes, so the clock only moves when the fetcher sleeps.
- The time of day of a price lookup's target is kept only as whether it is past midnight. That is all the floored day count in yfinance_helper.py:222 depends on.
- `YFinance.YFinanceHelper.constructor` requires a cache whose readable files hold non-empty series, and non-negative `delay_min` and `delay_max`. The source checks neither; the model needs them for the non-empty results and for a clock that never goes back.
- `YFinance.YFinanceHelper.PauseAfterBatch` requires a non-negative `delay_between_batches`. With a negative one `time.sleep` raises `ValueError`, an error path the model does not have.
- `YFinance.YFinanceHelper.BatchGetStockData` requires a non-negative `delay_between_batches`. The source sleeps only between batches. With a negative delay, a run of one batch (or of no tickers) completes, and a longer run raises `ValueError` at the first sleep. The model has neither case.
- `YFinance.YFinanceHelper.BatchGetStockData` requires a positive `batch_size`. In the source, `range(0, len(tickers), 0)` raises `ValueError`. A negative `batch_size` gives an empty range, so the source returns `{}` without a request or a pause. The model has neither case.
- `YFinance.YFinanceHelper.BatchDownloadBulk` requires a positive `batch_size` and a non-negative `delay_between_batches`, for the reasons given for `BatchGetStockData`.
- `YFinance.YFinanceHelper.BatchDownloadIndividual` requires a positive `batch_size` and a non-negative `delay_between_batches`, for the same reasons.
- `YFinance.YFinanceHelper.BulkRound` requires a non-negative `delay_between_batches`, for the reasons given for `BatchGetStockData`. It takes the batch's bounds rather than `batch_size`.
- `YFinance.YFinanceHelper.IndividualRound` requires a non-negative `delay_between_batches`, for the reasons given for `BatchGetStockData`. It takes the batch's bounds rather than `batch_size`.
- `KolGradeSystem.SampleScore` requires a positive `sample_norm`. In the source a zero `sample_norm` raises `ZeroDivisionError`. A negative one is accepted: the sample score is then `sample_num / sample_norm`, which is not positive for a non-negative count. The model has neither case.
- `KolGradeSystem.RawGrade` requires a positive `sample_norm`, for the reasons given for `SampleScore`.
- `KolGradeSystem.CalculateKolGrade` requires a positive `sample_norm`, for the same reasons.
- `Text.Lower` (common.dfy) lower-cases ASCII letters only. Python's `str.lower` also maps other letters; labels are expected to be ASCII.
- `KolSentiment.FetchReturns` requires a non-zero initial price. The sentiment store calls calculate_returns only when it has a price.
- `KolPerformanceMetrics.GetTopPerformers` does not state the stable sort's order among equal values, nor the dictionary's iteration order. It proves a descending permutation whose kept part ranks no lower than what is left out.
- `KolGradeSystem.AddGradeToPerformance` returns a new map instead of setting an attribute on shared objects, so aliasing of the metrics objects is not modelled.
- `YFinance.YFinanceHelper.BatchDownloadBulk` states only that the results are non-empty series of requested tickers, each matching its cache file, which files can change, the batches and the pause count. What each batch contributes is stated by `YFinance.YFinanceHelper.BulkBatch`.
- `YFinance.YFinanceHelper.BatchGetStockData` states only what the two strategies share. The exact contents are stated by the strategy methods.
- `YFinance.YFinanceHelper.FetchOne`, `FetchEach`, `DownloadMisses`, `BulkBatch`, `BulkRound`, `IndividualRound`, `BatchDownloadIndividual` and `BatchDownloadBulk` state the cache as which files may change and which series they hold. They do not give each write's modification time, which is the clock at that fetch.
- The database layer is not part of this model: the SQLAlchemy tables, inserting records, updating returns, saving metrics. Neither are the report printers, the version checks of yfinance_config.py, demo_usage, the test scripts and `p3/main.py`.

Two behaviours of the code worth knowing:

- An empty frame from `yf.download` is retried like a failure (yfinance_helper.py:169-176). It does not end the call.
- A single return's volatility is NaN, as `np.std` with `ddof=1` gives (kol_performance_metrics.py:149). Both ratios are then 0.
