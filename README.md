# Facebook group scanner bot: verified model of its decision layer

The system is a Puppeteer bot. It reads the posts of a Facebook group, matches
them against a keyword table and sends every match to an n8n webhook. Around
that loop sit safety and bookkeeping components:

- a learner that tunes the bot's behaviour parameters;
- a ban-risk scorer;
- a retry loop behind a circuit breaker;
- two deduplication caches;
- a coordinator that spreads tasks over bot instances;
- a proxy rotation;
- working-hours rules;
- the human-like delay and ban-detection helpers.

This project models that decision and bookkeeping layer in Dafny and proves what
each part promises. There is one module per JavaScript file, plus `Common`:

| module | file | form |
|---|---|---|
| `BehavioralLearning` | lib/behavioral-learning.js | class `Learner`, with functions on the parameter table and metrics |
| `RiskPrediction` | lib/risk-prediction.js | class `RiskPredictor`, with pure factor functions |
| `FaultTolerance` | lib/fault-tolerance.js | class `FaultTolerance`, with the attempt loop as a method |
| `CacheManager` | lib/cache-manager.js | class `CacheManager` over two maps and a counter |
| `StatefulScanner` | lib/stateful-scanner.js | class `StatefulScanner` over a map of id sets and counters |
| `DistributedCoordinator` | lib/distributed-coordinator.js | class `DistributedCoordinator` over instances and task lists |
| `ProxyRotation` | lib/proxy-rotation.js | class `ProxyRotation`, plus `ArgList`, the caller's argument array held by reference |
| `SessionManager` | lib/session-manager.js | functions, and the peak-window search as a method |
| `ScannerBot` | fb-scanner-bot.js | keyword matching as loops, with id extraction and post selection |
| `HumanBehavior` | lib/human-behavior.js | functions |
| `Common` | (shared) | Option and Result, ASCII lower-casing, substring search, sums and means |

Everything the source takes from outside becomes an explicit parameter:

- the clock, as `now` in milliseconds, or as an hour of the day;
- every `Math.random()` draw, as a real in [0, 1);
- the results of foreign collaborators:
  - the operation outcomes of a retry;
  - the processor callbacks;
  - the database query and insert results;
  - the page's title, text and address.

JavaScript numbers are modelled as unbounded `int` where the source only counts or
uses `Math.floor`, and as `real` elsewhere.

Where the code and its written description disagree, the model follows the code:

- `sessionHistory` in the learner is unbounded in memory. It is only cut to 100
  entries when it is saved to a file.
- The risk trend uses thresholds of ±0.2 (lib/risk-prediction.js:354-355), not the
  ±10% of the success trend.

## Model

| member | source | states |
|---|---|---|
| Common.Lower | fb-scanner-bot.js:42 | `toLowerCase` keeps the length and maps every character on its own (ASCII letters). |
| Common.Includes | fb-scanner-bot.js:48 | `includes` is true exactly when the needle occurs at some position of the text. |
| HumanBehavior.DelayFor | lib/human-behavior.js:8-21 | A configured kind gets its own range, and an unknown kind gets 1000-3000 ms. Every range has 50 <= min < max. |
| HumanBehavior.BaseDelay | lib/human-behavior.js:23 | For a draw in [0, 1) the first delay lies in [min, max). |
| HumanBehavior.HumanDelay | lib/human-behavior.js:20-27 | The delay is within 10% of the base delay, rounded down, and is strictly positive for every kind. |
| HumanBehavior.Jittered | lib/human-behavior.js:25-26 | The variance term keeps the floored delay between floor(0.9·d) and floor(1.1·d), and above 0 for d >= 50. |
| HumanBehavior.JitterWithin | lib/human-behavior.js:25 | `(r2 - 0.5) * (d * 0.2)` lies in [-0.1·d, 0.1·d] for a draw r2 in [0, 1). |
| HumanBehavior.Lerp | lib/human-behavior.js:41-43 | The interpolation gives start at t = 0 and end at t = 1, and for t in [0, 1] stays between the two, whichever is larger. |
| HumanBehavior.EaseInOut | lib/human-behavior.js:48-50 | The curve maps 0 to 0 and 1 to 1, and maps [0, 1] into [0, 1]. |
| HumanBehavior.EaseInOutMonotone | lib/human-behavior.js:48-50 | Both branches give 0.5 at t = 0.5, and the curve never decreases on [0, 1]. |
| HumanBehavior.EaseInOutSquares | lib/human-behavior.js:49 | The right branch `-1 + (4 - 2t)t` equals `1 - 2(1 - t)²`, the mirror of the left branch. |
| HumanBehavior.AnyIncluded | lib/human-behavior.js:190-216 | The early-return search is true exactly when some listed string occurs in the text. |
| HumanBehavior.CheckBanRisk | lib/human-behavior.js:179-225 | A page is a ban exactly when its title holds a listed title, or its text holds a listed phrase, or its address holds "checkpoint" or "challenge". |
| HumanBehavior.CheckpointUrlIsBan | lib/human-behavior.js:219-222 | Any address containing "checkpoint" is a ban, whatever the title and text. |
| BehavioralLearning.DefaultsConform | lib/behavioral-learning.js:53-81 | The default table satisfies the table invariant: default layout, every current value inside its range. |
| BehavioralLearning.DefaultRangesNonEmpty | lib/behavioral-learning.js:53-81 | Every default range is non-empty. `scrolling.scrollDirection` is the only parameter without min and max. |
| BehavioralLearning.CurrentWithin | lib/behavioral-learning.js:53-81 | A table that satisfies the invariant holds every default parameter, and its current value lies in the default range. |
| BehavioralLearning.Clamp | lib/behavioral-learning.js:225 | The clamped value lies in [lo, hi], and a value already inside is returned unchanged. |
| BehavioralLearning.Adapted | lib/behavioral-learning.js:215-226 | One step keeps the bounds and lands inside the range. It equals clamp(c + (v - c)·rate, min, max), where c is the current value or the midpoint when the current value is 0. A parameter without min and max (the scroll direction) gets the current value NaN, as `Math.max(undefined, ...)` gives. |
| BehavioralLearning.AdaptedMovesTowardTarget | lib/behavioral-learning.js:219-225 | From an in-range start toward an in-range target at a rate in [0, 1], the new value lies between the old value and the target. |
| BehavioralLearning.StepBetween | lib/behavioral-learning.js:222 | `c + (v - c)·rate` lies between c and v for every rate in [0, 1]. |
| BehavioralLearning.AdaptIn | lib/behavioral-learning.js:215-226 | A missing category or parameter changes nothing. Otherwise only that one parameter changes, to its adapted value (NaN for the scroll direction), and the table keeps its keys. |
| BehavioralLearning.AdaptInConforms | lib/behavioral-learning.js:215-226 | Adapting any parameter of a valid table gives a valid table. |
| BehavioralLearning.ActionAdaptsOneParameter | lib/behavioral-learning.js:192-210 | An action of a learnt kind moves exactly its own parameter toward the observed value, or toward the default 100/200/100/1500, at rate 0.01, and leaves every other parameter unchanged. Any other kind changes nothing. The table stays valid. |
| BehavioralLearning.Randomized | lib/behavioral-learning.js:322-325 | A ranged parameter gets `r·(max - min) + min`, which lies in [min, max). The bounds are kept, and a parameter without min and max is untouched. |
| BehavioralLearning.RandomizedPatterns | lib/behavioral-learning.js:319-328 | Randomisation keeps every category and parameter name and replaces each parameter by its randomised value. |
| BehavioralLearning.RandomizedCategory | lib/behavioral-learning.js:321-326 | Within one category every parameter is replaced by its randomised value, and the names are kept. |
| BehavioralLearning.RandomizedConforms | lib/behavioral-learning.js:319-328 | After randomisation the table is valid, every ranged value lies in [min, max), and `scrollDirection` is unchanged. |
| BehavioralLearning.TooFastSlowsDown | lib/behavioral-learning.js:297-304 | After a too-fast warning, an action delay below 2 s grows but never past 2 s. A delay at or above 2 s moves down toward 2 s and not below it. |
| BehavioralLearning.PatternsAfterRiskConforms | lib/behavioral-learning.js:297-314 | Risk adaptation keeps the table valid for every risk kind. |
| BehavioralLearning.SessionAfterAction | lib/behavioral-learning.js:155-187 | Exactly one action is appended. A timing transition is appended exactly when an earlier action exists, with timeDiff = new timestamp - previous timestamp. The consistency of transitions with actions is preserved. |
| BehavioralLearning.ReinforcedValid | lib/behavioral-learning.js:261-275 | One reinforcement adds one use and one success to its type, so successes == uses and effectiveness is 1. Every other type is unchanged. |
| BehavioralLearning.ReinforcedAllValid | lib/behavioral-learning.js:247-256 | Reinforcing a run of actions keeps successes == uses and effectiveness 1 for every type. |
| BehavioralLearning.ReinforcedAllUses | lib/behavioral-learning.js:247-275 | A run raises each type's uses by the number of its actions in the run, and adds exactly the types that occur. |
| BehavioralLearning.ReinforceEach | lib/behavioral-learning.js:251-255 | The loop over the credited actions computes the run's reinforcement. |
| BehavioralLearning.RecentActions | lib/behavioral-learning.js:251 | The credited actions are the last min(5, n) actions. |
| BehavioralLearning.MetricsAfterSession | lib/behavioral-learning.js:363-376 | The total goes up by 1, successes by 1 exactly on success, bans by 1 exactly on a ban, and the rate is successes/total. Valid counters stay valid. |
| BehavioralLearning.MetricsWithEffectiveness | lib/behavioral-learning.js:247-256 | Storing valid effectiveness counters keeps the metrics valid. |
| BehavioralLearning.SessionRunMetrics | lib/behavioral-learning.js:363-376 | From fresh metrics, any run of ended sessions leaves the session, success and ban counts of the run, valid counters, and a rate equal to successes over sessions. |
| BehavioralLearning.OptimalParameters | lib/behavioral-learning.js:381-413 | Each known action type reports its own parameter set: every number is the learnt current value it is read from (floored for microMovements and pathVariety) and lies in its default range. The scroll direction is read from the draw. An unknown type reports an empty object. |
| BehavioralLearning.MouseParameters | lib/behavioral-learning.js:385-389 | speed and pauseFrequency are the current averageSpeed and pauseFrequency, in [50, 200] and [0.1, 0.3]. microMovements is the floor of its current value, a whole number in [2, 8]. |
| BehavioralLearning.ScrollParameters | lib/behavioral-learning.js:390-394 | speed and pause are the current scrollSpeed and scrollPauses, in [100, 400] and [500, 2000]. The direction is "down" exactly when the current down share is a number and the draw is below it. |
| BehavioralLearning.ScrollDirection | lib/behavioral-learning.js:392 | The direction is "down" exactly when the share is a number above the draw. A comparison with NaN is false, so then it is "up". |
| BehavioralLearning.DefaultScrollDirection | lib/behavioral-learning.js:62 | With the default table, a draw below 0.7 scrolls down and any other scrolls up. |
| BehavioralLearning.AdaptedScrollDirectionIsUp | lib/behavioral-learning.js:215-226 | Once the scroll direction has been adapted its current value is NaN, and every later draw scrolls up (line 392). |
| BehavioralLearning.TypingParameters | lib/behavioral-learning.js:395-399 | speed, errorRate and backspaceFrequency are the current typingSpeed, errorRate and backspaceFrequency, in [50, 150], [0.01, 0.05] and [0.05, 0.15]. |
| BehavioralLearning.DelayParameters | lib/behavioral-learning.js:400-404 | actionDelay, readingTime and thinkingTime are their current values, in [500, 3000], [1000, 5000] and [2000, 8000]. |
| BehavioralLearning.NavigationParameters | lib/behavioral-learning.js:405-409 | pathVariety is the floor of its current value, a whole number in [3, 8]. backtrackFrequency and explorationRate are their current values, in [0.1, 0.3] and [0.2, 0.6]. |
| BehavioralLearning.TrendAgainstFirstHalf | lib/behavioral-learning.js:454-468 | With a positive first-half mean, the series is improving exactly when the second mean exceeds 1.1 times the first, and declining exactly when it is below 0.9 times the first. |
| BehavioralLearning.TrendAgainstNegativeFirstHalf | lib/behavioral-learning.js:454-468 | With a negative first-half mean, the series is improving exactly when the second mean is below 1.1 times the first, and declining exactly when it is above 0.9 times the first. |
| BehavioralLearning.CalculateTrend | lib/behavioral-learning.js:455 | Fewer than two values are stable. |
| BehavioralLearning.ConstantSeriesIsStable | lib/behavioral-learning.js:454-468 | A constant series, including one that is all zero, is stable. |
| BehavioralLearning.TrendAgainstZeroFirstHalf | lib/behavioral-learning.js:460-467 | With a zero first-half mean, the series is improving exactly when the second mean is positive, declining exactly when it is negative, and stable exactly when it is 0. The division gives ±Infinity or NaN. |
| BehavioralLearning.Recommendations | lib/behavioral-learning.js:473-491 | Each advice appears exactly when its condition holds, and none twice. The conditions are: success rate < 0.8; ban rate > 5% of at least one session; more than 3 risk events. |
| BehavioralLearning.LastTen | lib/behavioral-learning.js:440 | The analysed sessions are the last min(10, n). |
| BehavioralLearning.AnalyzeTrends | lib/behavioral-learning.js:437-449 | There is no report below five sessions. Otherwise the report holds the trends of success (1 or 0 per session) and of the risk-event counts over the last ten sessions, with the recommendations. |
| BehavioralLearning.Learner.constructor | lib/behavioral-learning.js:10-34 | A fresh learner has the default table, no history, zero metrics and an empty session started now. |
| BehavioralLearning.Learner.AdaptPattern | lib/behavioral-learning.js:215-226 | The table becomes `AdaptIn` of the old table, so adapting the scroll direction makes it NaN, and nothing else changes. The table invariant is kept. |
| BehavioralLearning.Learner.RecordAction | lib/behavioral-learning.js:155-170 | The session gains the action and its transition, and the table learns from the action. History and metrics are unchanged. |
| BehavioralLearning.Learner.ReinforceSuccessfulPatterns | lib/behavioral-learning.js:247-256 | The effectiveness counters become the reinforcement of the last five actions, and nothing else changes. |
| BehavioralLearning.Learner.RecordSuccess | lib/behavioral-learning.js:231-242 | One success event is appended, and the recent actions are reinforced. |
| BehavioralLearning.Learner.RandomizeCurrentPatterns | lib/behavioral-learning.js:319-328 | The table becomes its randomisation under the given draws, and nothing else changes. |
| BehavioralLearning.Learner.RandomizeTable | lib/behavioral-learning.js:320-327 | The loop over categories computes the randomised table. |
| BehavioralLearning.Learner.RandomizeCategory | lib/behavioral-learning.js:321-326 | The loop over one category's parameters computes the randomised category. |
| BehavioralLearning.Learner.RecordRisk | lib/behavioral-learning.js:280-292 | One risk event is appended, and the table is adapted to avoid that risk. |
| BehavioralLearning.Learner.EndSession | lib/behavioral-learning.js:333-358 | The session is appended to the history with its end time and duration. The metrics are updated by `MetricsAfterSession`, and a new empty session starts now. |
| RiskPrediction.Min1 | lib/risk-prediction.js:132 | `Math.min(x, 1)` is at most 1, at most x, and equal to x when x <= 1. |
| RiskPrediction.TimingRisk | lib/risk-prediction.js:101-133 | The timing factor lies in [0, 1]. |
| RiskPrediction.BehaviorRisk | lib/risk-prediction.js:138-171 | The behaviour factor lies in [0, 1]. |
| RiskPrediction.PatternRisk | lib/risk-prediction.js:176-203 | The pattern factor lies in [0, 1]. |
| RiskPrediction.NetworkRisk | lib/risk-prediction.js:208-232 | The network factor lies in [0, 1]. |
| RiskPrediction.SessionRisk | lib/risk-prediction.js:237-267 | The session factor lies in [0, 1]. |
| RiskPrediction.ZeroTimingSignalIsAbsent | lib/risk-prediction.js:105-130 | A timing signal equal to 0 scores exactly as if it were absent, because 0 is falsy. |
| RiskPrediction.ZeroErrorRateCounts | lib/risk-prediction.js:162-168 | An error rate of 0 is not skipped: it is below 0.01 and adds 0.2. |
| RiskPrediction.FasterActionsAreRiskier | lib/risk-prediction.js:105-111 | Lowering a positive action interval never lowers the timing factor. |
| RiskPrediction.Sanitize | lib/risk-prediction.js:272-281 | Sanitising removes exactly `cookies`, `userData` and `sensitiveData`, and keeps every other key with its value. |
| RiskPrediction.Assess | lib/risk-prediction.js:62-68 | Every component of the breakdown lies in [0, 1]. |
| RiskPrediction.SanitizeKeepsKey | lib/risk-prediction.js:272-281 | Any non-sensitive key reads the same before and after sanitising. |
| RiskPrediction.SanitizeKeepsAssessment | lib/risk-prediction.js:272-281 | The stored sanitised data scores exactly as the original data. |
| RiskPrediction.SanitizeKeepsTiming | lib/risk-prediction.js:101-133 | The timing factor ignores the sensitive keys. |
| RiskPrediction.SanitizeKeepsBehavior | lib/risk-prediction.js:138-171 | The behaviour factor ignores the sensitive keys. |
| RiskPrediction.SanitizeKeepsPatterns | lib/risk-prediction.js:176-203 | The pattern factor ignores the sensitive keys. |
| RiskPrediction.SanitizeKeepsNetwork | lib/risk-prediction.js:208-232 | The network factor ignores the sensitive keys. |
| RiskPrediction.SanitizeKeepsSession | lib/risk-prediction.js:237-267 | The session factor ignores the sensitive keys. |
| RiskPrediction.CombinedClosedForm | lib/risk-prediction.js:70-80 | The weights sum to 1, and the weighted mean is 0.3·t + 0.25·b + 0.2·p + 0.15·n + 0.1·s. |
| RiskPrediction.CombinedInUnit | lib/risk-prediction.js:70-80 | The weighted mean of factors in [0, 1] lies in [0, 1]. |
| RiskPrediction.Capped | lib/risk-prediction.js:91-93 | The history is at most 100 long. A short history is kept whole, and a long one is cut to its last 100. |
| RiskPrediction.CappedKeepsScores | lib/risk-prediction.js:83-93 | After appending and capping, the last entry is the new one and every score still lies in [0, 1]. |
| RiskPrediction.LevelOf | lib/risk-prediction.js:286-291 | The level is low below 0.3, medium below 0.6, high below 0.8 and critical otherwise, each as an if-and-only-if. |
| RiskPrediction.LevelMonotone | lib/risk-prediction.js:286-291 | A higher score never gives a lower level. |
| RiskPrediction.TrendOf | lib/risk-prediction.js:341-357 | A history of fewer than 6 scores is stable: with 5 entries the older slice is empty. |
| RiskPrediction.TrendReadsLastTen | lib/risk-prediction.js:344-345 | The trend reads only the last ten scores: entries in front of them change nothing. |
| RiskPrediction.TrendAgainstOlder | lib/risk-prediction.js:341-357 | With a positive older mean, the trend is increasing exactly when the recent mean exceeds 1.2 times the older mean, and decreasing exactly when it is below 0.8 times. |
| RiskPrediction.TrendAgainstZeroOlder | lib/risk-prediction.js:341-357 | With a zero older mean, the division gives plus or minus Infinity or NaN: the trend is increasing exactly when the recent mean is positive, decreasing exactly when it is negative, and stable exactly when it is 0. |
| RiskPrediction.TrendAgainstNegativeOlder | lib/risk-prediction.js:341-357 | With a negative older mean, the comparisons flip: increasing exactly when the recent mean is below 1.2 times the older mean, decreasing exactly when it is above 0.8 times. |
| RiskPrediction.AlertsFor | lib/risk-prediction.js:296-336 | There is one level alert unless the level is low, and one trend alert exactly when the trend is increasing, all stamped now. |
| RiskPrediction.MitigationsFor | lib/risk-prediction.js:362-409 | Low gives no actions. Otherwise there are two actions of one kind with priorities 1 and 2: stop_session and change_proxy when critical; increase_delays and reduce_activity when high; add_randomness and take_short_break when medium. |
| RiskPrediction.CriticalMeansStop | lib/risk-prediction.js:300-372 | At the critical level both the alert and the first mitigation say stop_session. |
| RiskPrediction.RecommendationsFor | lib/risk-prediction.js:414-438 | Three messages unless the level is low, and two more exactly when the trend is increasing. High and critical start with the stop advice, and medium starts with the delay advice. |
| RiskPrediction.Scores | lib/risk-prediction.js:344-345 | The scores are read off the history entry by entry. |
| RiskPrediction.NewerThan | lib/risk-prediction.js:473-476 | Cleanup keeps every entry newer than the cutoff and only such entries, and never lengthens the history. |
| RiskPrediction.NewerThanKeepsOrder | lib/risk-prediction.js:475 | The cleanup is an order-preserving filter: it distributes over concatenation, keeps a single newer entry and drops an older one, and a second cleanup at the same cutoff changes nothing. |
| RiskPrediction.RiskPredictor.constructor | lib/risk-prediction.js:8-56 | A fresh scorer has score 0 and empty history, alerts and mitigations. |
| RiskPrediction.RiskPredictor.CalculateRiskScore | lib/risk-prediction.js:61-96 | The stored and returned score is the fixed-weight mean of the five factors and lies in [0, 1]. The history is the capped old history plus the sanitised assessment, whose score is the new score. |
| RiskPrediction.RiskPredictor.CombineScores | lib/risk-prediction.js:70-80 | The loop over the factors computes the weighted sum divided by a non-zero total weight. |
| RiskPrediction.RiskPredictor.RiskLevel | lib/risk-prediction.js:286-291 | The level is low, medium, high or critical exactly when the current score is below 0.3, in [0.3, 0.6), in [0.6, 0.8) or at least 0.8. |
| RiskPrediction.RiskPredictor.Trend | lib/risk-prediction.js:341-357 | With fewer than 6 stored assessments the trend is stable. |
| RiskPrediction.RiskPredictor.GenerateAlerts | lib/risk-prediction.js:296-336 | The returned and stored alerts are those of the current level and trend, and nothing else changes. |
| RiskPrediction.RiskPredictor.GenerateMitigationActions | lib/risk-prediction.js:362-409 | The returned and stored actions are those of the current level, and nothing else changes. |
| RiskPrediction.RiskPredictor.Reset | lib/risk-prediction.js:464-468 | Reset sets the score to 0 and empties the alerts and mitigations. It keeps the history. |
| RiskPrediction.RiskPredictor.Cleanup | lib/risk-prediction.js:473-476 | The history becomes the order-preserving filter of entries newer than 24 hours, and the score, alerts and actions are unchanged. |
| FaultTolerance.Setting | lib/fault-tolerance.js:8-18 | A given option overrides its default, even when it is 0, because the spread comes last. |
| FaultTolerance.KeepRecent | lib/fault-tolerance.js:263-292 | A buffer of at most 1000 entries is kept whole. A longer one is cut to a suffix, which is never longer than 1000 after one push and ends with the newest entry. |
| FaultTolerance.KeptSuccesses | lib/fault-tolerance.js:263-275 | Truncation keeps a buffer made only of successes. |
| FaultTolerance.KeptFailures | lib/fault-tolerance.js:280-292 | Truncation keeps a buffer made only of failures. |
| FaultTolerance.Pow2 | lib/fault-tolerance.js:253 | `2^n` is at least 1. |
| FaultTolerance.RetryDelay | lib/fault-tolerance.js:252-258 | The delay is min(base·2^(attempt-1) + jitter, 30000), so it never exceeds 30 s. |
| FaultTolerance.DefaultBackoff | lib/fault-tolerance.js:252-258 | With the default 5 s base, the first three retries wait 5-6 s, 10-11 s and 20-21 s. From the fourth on they wait the 30 s cap. |
| FaultTolerance.Pow2AtLeast | lib/fault-tolerance.js:253 | `2^n >= 8` from n = 3. |
| FaultTolerance.Recent | lib/fault-tolerance.js:405-418 | The window is the last min(n, k) entries. |
| FaultTolerance.Times | lib/fault-tolerance.js:409 | The response times are read off the window entry by entry. |
| FaultTolerance.AverageResponseTime | lib/fault-tolerance.js:405-411 | An empty buffer averages 0. |
| FaultTolerance.AverageWithin | lib/fault-tolerance.js:405-411 | The rounded average of the last 50 times lies between their bounds. |
| FaultTolerance.RoundWithin | lib/fault-tolerance.js:410 | `Math.round` of a value between two integers stays between them. |
| FaultTolerance.CountFailed | lib/fault-tolerance.js:420 | The failure count is at most the window size, and it is the whole window when every entry failed. |
| FaultTolerance.ErrorRate | lib/fault-tolerance.js:416-422 | The error rate is a percentage in [0, 100], and 0 for an empty buffer. |
| FaultTolerance.ErrorRateAllOrNothing | lib/fault-tolerance.js:416-422 | Every recorded entry has success false, so the rate is 0 for an empty buffer and 100 otherwise. |
| FaultTolerance.WholeShare | lib/fault-tolerance.js:421 | `Math.round(n / n * 100)` is 100. |
| FaultTolerance.Admitted | lib/fault-tolerance.js:185-193 | An admitted call sees a closed breaker. An open breaker past its retry time is closed with its count reset to 0. |
| FaultTolerance.DefaultBreakerOpensOnSecondFailingCall | lib/fault-tolerance.js:181-247 | With the defaults and an always-failing operation, the first call makes 3 attempts and leaves the breaker closed with count 3. The second call opens it after 2 attempts, with retry time = failure time + 60 s. Total failures rise by 5 across the two calls. |
| FaultTolerance.RunAttempts | lib/fault-tolerance.js:195-246 | The attempt loop calls the operation at most maxRetries times and stops at the first success or when the breaker opens. It updates breaker and health as each outcome dictates, and sleeps the capped backoff only between attempts. |
| FaultTolerance.FaultTolerance.constructor | lib/fault-tolerance.js:8-51 | The settings are the options over the defaults 3/5000/5/60000. The breaker is closed, health is clean and the buffers are empty. |
| FaultTolerance.FaultTolerance.RecordSuccessMetrics | lib/fault-tolerance.js:263-275 | The timing buffer gains the entry and is truncated, and nothing else changes. |
| FaultTolerance.FaultTolerance.RecordFailureMetrics | lib/fault-tolerance.js:280-292 | The error buffer gains the failed entry and is truncated, and nothing else changes. |
| FaultTolerance.FaultTolerance.ExecuteWithRetry | lib/fault-tolerance.js:181-247 | An open breaker before its retry time fails fast without calling the operation and changes nothing. Otherwise the call makes the attempts of `RunAttempts`. A success returns the value and records its timing. A failure rethrows the last error and records it, and the count carries over to the next call. |
| FaultTolerance.FaultTolerance.Reset | lib/fault-tolerance.js:427-440 | The breaker is closed with count 0, consecutive failures are 0, recovery actions and retry attempts are cleared, and the buffers are kept. |
| CacheManager.OrElse | lib/cache-manager.js:88-90 | `a \|\| fallback` takes a non-empty value, and otherwise the fallback. |
| CacheManager.Prefix | lib/cache-manager.js:93-114 | `substring(0, n)` is a prefix of at most n characters, and the whole string when it is short. |
| CacheManager.KeyIgnoresCase | lib/cache-manager.js:87-95 | Posts that differ only in letter case get the same key. |
| CacheManager.LowerPrefixOf | lib/cache-manager.js:93 | Lower-casing commutes with taking the first 200 characters. |
| CacheManager.LowerKey | lib/cache-manager.js:87-95 | The key is `lower(author)\|lower(text[0..200])\|lower(url)`. |
| CacheManager.PostKey | lib/cache-manager.js:87-95 | The key has the length of author, text prefix and address plus two separators, and it is already lower case. |
| CacheManager.KeyIgnoresTextTail | lib/cache-manager.js:87-95 | Posts with the same author and address and the same first 200 characters of text get the same key. |
| CacheManager.RecordOf | lib/cache-manager.js:110-115 | The stored record holds the time, the author and a 100-character preview. |
| CacheManager.FreshPosts | lib/cache-manager.js:184-210 | The filtered list is no longer than the input. |
| CacheManager.FreshPostsMembers | lib/cache-manager.js:184-210 | A post is kept exactly when it is in the input and neither its key nor its address is known. |
| CacheManager.SkipKnown | lib/cache-manager.js:188-203 | The loop computes the order-preserving filter. |
| CacheManager.FreshPostsStep | lib/cache-manager.js:188-203 | One more post extends the filter by that post exactly when it is fresh. |
| CacheManager.FreshPostsIdempotent | lib/cache-manager.js:184-210 | Filtering twice gives the same list as filtering once. |
| CacheManager.FreshPostsOfFresh | lib/cache-manager.js:184-210 | A list of fresh posts passes the filter unchanged. |
| CacheManager.FreshPostsAppend | lib/cache-manager.js:184-210 | The filter of a concatenation is the concatenation of the filters. |
| CacheManager.EvictionKeepsNewest | lib/cache-manager.js:146-179 | The strictly newest entry survives eviction. |
| CacheManager.OldestKey | lib/cache-manager.js:150-157 | The chosen key is in the map and has a minimal timestamp. |
| CacheManager.EvictOldest | lib/cache-manager.js:146-179 | A map within the limit is unchanged. A larger map keeps exactly `max` of its entries, unchanged, and every removed entry is no newer than any kept one. |
| CacheManager.Purged | lib/cache-manager.js:270-297 | The purge keeps exactly the entries stamped at or after the cutoff, unchanged. |
| CacheManager.PurgedTwice | lib/cache-manager.js:270-297 | Purging at c1 and then at a later c2 is the same as purging at c2. |
| CacheManager.PurgeBefore | lib/cache-manager.js:278-291 | The deletion loop computes the purge. |
| CacheManager.ReturnedValues | lib/cache-manager.js:219-237 | At most one result is collected per processed post. |
| CacheManager.TruthyCount | lib/cache-manager.js:225-232 | At most one post is marked per processed post. |
| CacheManager.ProgressStep | lib/cache-manager.js:219-237 | One callback step keeps the loop invariant: only posts with a truthy result are marked. |
| CacheManager.ModuloStep | lib/cache-manager.js:117-122 | When no multiple of 1000 is crossed, the count modulo 1000 grows by the number of marks. |
| CacheManager.CacheManager.constructor | lib/cache-manager.js:10-28 | The caches start with the loaded maps and a count of 0. |
| CacheManager.CacheManager.CleanupCache | lib/cache-manager.js:146-179 | Each map is evicted oldest-first down to 10000 entries. |
| CacheManager.CacheManager.MarkPostProcessed | lib/cache-manager.js:108-123 | The count rises by 1, and the post's record is stored. A cleanup runs exactly when the count reaches a multiple of 1000. A post newer than every other stays processed. |
| CacheManager.CacheManager.MarkUrlVisited | lib/cache-manager.js:136-141 | An empty address changes nothing. Any other address is stored with the current time. |
| CacheManager.CacheManager.IsPostProcessed | lib/cache-manager.js:100-103 | A post is processed exactly when its key is in the processed map. |
| CacheManager.CacheManager.IsUrlVisited | lib/cache-manager.js:128-131 | An empty address is never visited. Any other address is visited exactly when it is in the map. |
| CacheManager.CacheManager.FilterDuplicatePosts | lib/cache-manager.js:184-210 | The result is the order-preserving filter of unknown posts, and the caches are unchanged. |
| CacheManager.CacheManager.ProcessPostsWithDuplicateFilter | lib/cache-manager.js:215-243 | Only filtered posts are passed to the callback, and only those with a truthy result are marked, each at its own clock reading. The count rises by the number of such posts, and the results are the returned values. |
| CacheManager.CacheManager.MarkSucceeded | lib/cache-manager.js:225-232 | A successful post is marked processed, and visited when it has an address. |
| CacheManager.CacheManager.ClearCache | lib/cache-manager.js:260-265 | Both maps become empty. |
| CacheManager.CacheManager.RemoveOldEntries | lib/cache-manager.js:270-297 | Both maps keep exactly their entries no older than `daysOld` days, 30 when the argument is missing. |
| StatefulScanner.KeptRows | lib/stateful-scanner.js:65-73 | Hydration keeps exactly the rows newer than now - maxPostAgeHours, and every row when the age filter is 0. |
| StatefulScanner.LoadedIds | lib/stateful-scanner.js:65-77 | The loaded set is exactly the ids of the kept rows. |
| StatefulScanner.StatsAfter | lib/stateful-scanner.js:143-196 | Every call counts one post. A known post counts one skip and extends the known run. A truthy new post that is saved resets the run to 0. |
| StatefulScanner.StatsAfterTallied | lib/stateful-scanner.js:143-196 | newPosts + skippedPosts <= totalProcessed is preserved by every call. |
| StatefulScanner.KnownRunLength | lib/stateful-scanner.js:155-168 | n known posts in a row from a zero run reach the stop limit exactly when n >= limit. |
| StatefulScanner.SavedPostEndsRun | lib/stateful-scanner.js:175-181 | After a saved new post the scan does not stop, however long the known run was. |
| StatefulScanner.StatefulScanner.constructor | lib/stateful-scanner.js:7-27 | The tracking settings are the given ones or the defaults (enabled, 3, 24), with an empty cache and zero stats. |
| StatefulScanner.StatefulScanner.Initialize | lib/stateful-scanner.js:32-85 | Disabled tracking does nothing. A failed query reports the error and changes nothing. Otherwise the group's set becomes the loaded ids and the cache is marked loaded. |
| StatefulScanner.StatefulScanner.MarkPostAsProcessed | lib/stateful-scanner.js:102-137 | With tracking on, the id joins its group's set before the write, whatever the write's result. The result is true on success or on duplicate key 23505, and false otherwise. |
| StatefulScanner.StatefulScanner.ProcessPost | lib/stateful-scanner.js:142-197 | A known post skips the processor, and the report says whether to stop. A new post is processed once and marked. The run resets only when the result was truthy and the save succeeded. A processor error is rethrown. With tracking off every post is processed. |
| StatefulScanner.StatefulScanner.ResetSessionStats | lib/stateful-scanner.js:209-217 | The counters return to 0 with a new start time, and the cache is unchanged. |
| StatefulScanner.StatefulScanner.IsPostProcessed | lib/stateful-scanner.js:90-97 | With tracking off or the cache not loaded nothing is processed. A processed id is in its group's set. |
| StatefulScanner.StatefulScanner.ShouldStopScanning | lib/stateful-scanner.js:202-204 | A limit of 0 or less stops at once, and a run shorter than the limit never stops. |
| StatefulScanner.StatefulScanner.ClearGroupCache | lib/stateful-scanner.js:258-261 | Only that group's set is removed. |
| DistributedCoordinator.LeastLoadedIndex | lib/distributed-coordinator.js:285-289 | The chosen instance has minimal load and is the first such one. |
| DistributedCoordinator.DrawIndex | lib/distributed-coordinator.js:294-296 | `floor(r·n)` is a valid index. |
| DistributedCoordinator.RoundRobinVisitsAll | lib/distributed-coordinator.js:276-280 | Within n further picks the round robin reaches every position. |
| DistributedCoordinator.Pick | lib/distributed-coordinator.js:261-296 | The pick is one of the selectable instances: at index mod n for round robin, the first least-loaded for least connections, floor(draw·n) for random, and the first otherwise. |
| DistributedCoordinator.Apply | lib/distributed-coordinator.js:163-177 | Updating an instance by id keeps the table length and changes exactly the entries with that id. |
| DistributedCoordinator.WithoutStale | lib/distributed-coordinator.js:197-209 | Deleting the stale ids keeps exactly the live instances. |
| DistributedCoordinator.StaleIdsOfUnique | lib/distributed-coordinator.js:197-202 | With unique ids, an id is stale exactly when its instance is. |
| DistributedCoordinator.FilterKeepsUnique | lib/distributed-coordinator.js:191-212 | The sweep keeps the ids unique. |
| Common.Filter | lib/distributed-coordinator.js:256-257 | `filter` never lengthens the list and keeps exactly the entries that pass the test. |
| Common.FilterAppend | lib/distributed-coordinator.js:443-444 | `filter` distributes over concatenation, so it keeps the order of the kept entries. |
| DistributedCoordinator.StaleIdList | lib/distributed-coordinator.js:197-202 | The collected list holds exactly the stale ids. |
| DistributedCoordinator.CollectStale | lib/distributed-coordinator.js:197-202 | The first loop collects the stale ids and marks them unhealthy. |
| DistributedCoordinator.DeleteAll | lib/distributed-coordinator.js:205-209 | The second loop deletes the collected instances and clears their unhealthy marks. |
| DistributedCoordinator.Sweep | lib/distributed-coordinator.js:191-212 | The health check keeps exactly the live instances, and none of the removed ids stays unhealthy. |
| DistributedCoordinator.SweepTwice | lib/distributed-coordinator.js:191-212 | A second sweep at the same time changes nothing. |
| DistributedCoordinator.RunTask | lib/distributed-coordinator.js:376-392 | Only a process_posts task that has posts succeeds, and it processes every post. scrape_group always fails with the missing-module error. |
| DistributedCoordinator.SuccessRateTenths | lib/distributed-coordinator.js:413-414 | The success rate in tenths of a percent is 0 with no tasks or no successes, and 1000 with no failures. |
| DistributedCoordinator.RateWithin | lib/distributed-coordinator.js:414 | The exact rate lies in [0, 1000], with 0 and 1000 at the extremes. |
| DistributedCoordinator.CleanupTwice | lib/distributed-coordinator.js:440-447 | Cleanup keeps exactly the tasks finished after the cutoff, and a second cleanup changes nothing. |
| DistributedCoordinator.DistributedCoordinator.constructor | lib/distributed-coordinator.js:8-46 | The settings take the options or their defaults (round robin, 120 s). A coordinator registers itself, and the lists start empty. |
| DistributedCoordinator.DistributedCoordinator.RegisterInstance | lib/distributed-coordinator.js:163-177 | The own instance is added or replaced by a fresh active entry, and nothing else changes. |
| DistributedCoordinator.DistributedCoordinator.PerformHealthCheck | lib/distributed-coordinator.js:191-212 | A non-coordinator does nothing. A coordinator removes exactly the stale instances and their unhealthy marks. |
| DistributedCoordinator.DistributedCoordinator.SelectInstance | lib/distributed-coordinator.js:254-296 | Nothing is returned, and nothing changes, exactly when no instance is active and healthy. Otherwise the result is the strategy's `Pick`, and only round robin advances the index, by 1. |
| DistributedCoordinator.DistributedCoordinator.ExecuteTask | lib/distributed-coordinator.js:308-371 | The task goes to exactly one of the completed or failed lists with its end state. The own instance's completed count rises only on success, and its load ends where it began. |
| DistributedCoordinator.DistributedCoordinator.DistributeTask | lib/distributed-coordinator.js:217-249 | A non-coordinator forwards and changes nothing. With no selectable instance the call fails and changes nothing. Otherwise exactly one task is appended, assigned to the strategy's pick; the round-robin index advances as in `SelectInstance` and the unhealthy set is kept. A task for another instance stays assigned. A task for this instance is run: the queued entry shows the outcome, it joins exactly one of the completed and failed lists, and this instance's counters are updated as in `ExecuteTask`. |
| DistributedCoordinator.DistributedCoordinator.GetSystemStats | lib/distributed-coordinator.js:412-435 | The counts match the lists, and the total is completed + failed. Active instances are the number of instances whose status is active, so at most all of them, and 0 exactly when none is active. The rate is `SuccessRateTenths`. |
| DistributedCoordinator.DistributedCoordinator.Cleanup | lib/distributed-coordinator.js:440-447 | Both task lists keep exactly the tasks finished in the last 24 hours. |
| ProxyRotation.ScanFinds | lib/proxy-rotation.js:52-61 | The skip loop returns the first unfailed proxy after the failed ones, or nothing when every remaining proxy failed. |
| ProxyRotation.RotateMeaning | lib/proxy-rotation.js:46-66 | An empty list gives nothing. A result is always an unfailed member. Nothing is returned exactly when every proxy failed, and then the index is unchanged. |
| ProxyRotation.PicksInOrder | lib/proxy-rotation.js:54-58 | With no failures, successive calls return the proxies cyclically in list order. |
| ProxyRotation.ProxyUrl | lib/proxy-rotation.js:122-125 | The URL starts with "http". It is the proxy itself when that already starts with "http", and otherwise "http://" + proxy. |
| ProxyRotation.ProxyUrlIdempotent | lib/proxy-rotation.js:122-125 | Building the URL twice gives the same URL. |
| ProxyRotation.ProxyArgs | lib/proxy-rotation.js:127-131 | Exactly two flags: `--proxy-server=<url>` and then the loopback bypass. |
| ProxyRotation.ArgList.constructor | lib/proxy-rotation.js:116-127 | The argument list starts with the given items. |
| ProxyRotation.ArgList.Push | lib/proxy-rotation.js:128-131 | Push appends exactly one item. |
| ProxyRotation.ConfigureWithProxy | lib/proxy-rotation.js:115-135 | With no proxy the options come back unchanged. Otherwise the two flags are appended to the caller's own array, which is created when missing, and every other setting is kept. |
| ProxyRotation.ProxyRotation.constructor | lib/proxy-rotation.js:7-11 | The rotation starts at index 0 with no failed proxy. |
| ProxyRotation.ProxyRotation.GetNextProxy | lib/proxy-rotation.js:46-66 | The result and the new index are those of the rotation rule, and the failed set is unchanged. |
| ProxyRotation.ProxyRotation.MarkProxyFailed | lib/proxy-rotation.js:71-76 | A falsy proxy is ignored, and any other joins the failed set. |
| ProxyRotation.ProxyRotation.ResetFailedProxies | lib/proxy-rotation.js:81-84 | The failed set is emptied, and the index is kept. |
| ProxyRotation.ResetThenNext | lib/proxy-rotation.js:81-84 | After a reset the next proxy is the one at the current index. |
| ProxyRotation.FailedNotHandedOut | lib/proxy-rotation.js:51-65 | A failed proxy is never returned. |
| SessionManager.GetActivityMultiplier | lib/session-manager.js:46-62 | The multiplier is that of the first peak window containing the hour, with the start inclusive and the end exclusive. It is 1.0 with no match or no windows. |
| SessionManager.InPeak | lib/session-manager.js:56 | A peak window includes its start hour and excludes its end hour, and only a non-empty window contains an hour. |
| SessionManager.ActiveStart | lib/session-manager.js:132 | The window opens at the configured start, and at 8 when the start is missing or 0. |
| SessionManager.ActiveEnd | lib/session-manager.js:133 | The window closes at the configured end, and at 22 when the end is missing or 0. |
| SessionManager.DefaultActiveWindow | lib/session-manager.js:128-136 | Unconfigured, the active hours are exactly 8 to 22, both inclusive. |
| SessionManager.IsActiveHours | lib/session-manager.js:128-136 | Both ends of the window are active hours; a window whose end is before its start (across midnight) contains no hour. |
| SessionManager.IsWorkingDay | lib/session-manager.js:68-77 | Without an enabled working-days rule every day is a working day. With one, a day works exactly when it is listed. |
| SessionManager.ShouldWork | lib/session-manager.js:142-156 | Working implies an hour inside the window. Unconfigured, the bot works exactly from 8 through 22 o'clock. |
| SessionManager.WeekendMultiplier | lib/session-manager.js:83-88 | 1.0 on a working day, and otherwise the weekend reduction, or 0.7 when it is unset. |
| SessionManager.BaseMinutes | lib/session-manager.js:18-27 | An object config gives its min and max. Otherwise min and max are the same number, 15 when unset or 0. |
| SessionManager.IntervalBounds | lib/session-manager.js:33-37 | Each bound is floor(minutes/multiplier)·60000, and a plain number gives equal bounds. |
| SessionManager.RandomInterval | lib/session-manager.js:17-40 | For a draw in [0, 1) the interval lies between the bounds. |
| SessionManager.DefaultIntervalIsFifteenMinutes | lib/session-manager.js:17-40 | With no config and multiplier 1, the interval is 900000 ms. |
| SessionManager.HoursUntilArrives | lib/session-manager.js:170-176 | The computed wait is in [0, 24), and the clock reaches the start hour after it. |
| SessionManager.WaitTargetAsWritten | lib/session-manager.js:168 | The wait aims at `activeHoursStart \|\| 8`, a setting separate from the window. |
| SessionManager.HoursToWaitAsWritten | lib/session-manager.js:161-177 | No wait inside the window. Otherwise the wait is the hours until the separate start setting. |
| SessionManager.WaitAsWrittenWakesOutsideWindow | lib/session-manager.js:161-177 | With the window at 10-22 and no separate setting, a wait begun at 23:00 ends at 8:00, still outside the window. |
| SessionManager.HoursToWait | lib/session-manager.js:161-177 | Corrected: no wait inside the window. Otherwise the wait lasts until the window's own start hour, in [0, 24). |
| SessionManager.HoursToWaitReachesWindow | lib/session-manager.js:161-177 | Corrected: after the wait the bot is inside a non-empty window. |
| ScannerBot.Found | fb-scanner-bot.js:47-52 | A category contributes exactly its keywords that occur in the lower-cased text. |
| ScannerBot.KeywordMatch | fb-scanner-bot.js:39-61 | Empty text matches nothing, and matched holds exactly when some keyword was found. |
| ScannerBot.ScanCategory | fb-scanner-bot.js:47-52 | The inner loop appends the category's found keywords and keeps the first matching category. |
| ScannerBot.MatchKeywords | fb-scanner-bot.js:39-61 | The nested loops compute `KeywordMatch`. |
| ScannerBot.AllFoundMeaning | fb-scanner-bot.js:43-54 | A keyword is reported exactly when some category lists it and it occurs case-insensitively in the text. |
| ScannerBot.AllFoundAppend | fb-scanner-bot.js:46-53 | The found keywords come in category order and then keyword order. |
| ScannerBot.KeywordsOfText | fb-scanner-bot.js:39-61 | For non-empty text the reported keywords are exactly the listed keywords that occur in it. |
| ScannerBot.CategoryIsFirstMatch | fb-scanner-bot.js:45-51 | The category is the first in table order with a match, and none when no category matches. |
| ScannerBot.FindFrom | fb-scanner-bot.js:253 | The search finds the first occurrence of the marker. |
| ScannerBot.DigitRun | fb-scanner-bot.js:253 | `(\d+)` takes the longest run of leading digits. |
| ScannerBot.DigitsAfter | fb-scanner-bot.js:253 | The pattern matches exactly when the marker occurs and is followed by at least one digit. The captured group is then the longest run of digits that starts right after the leftmost such match. |
| ScannerBot.ExternalId | fb-scanner-bot.js:250-255 | The id is digits only. It is empty for an empty address, and empty exactly when neither pattern matches. When `/posts/<digits>` matches, the id is its captured digits; otherwise, when `/permalink/<digits>` matches, it is that pattern's captured digits. |
| ScannerBot.ExternalIdOfPostUrl | fb-scanner-bot.js:250-255 | Any address made of a prefix without a `/posts/<digit>` match, then `/posts/<digits>` and a tail that does not start with a digit, yields exactly those digits. |
| ScannerBot.ExternalIdOfPermalinkUrl | fb-scanner-bot.js:250-255 | With no `/posts/<digit>` match anywhere, an address made of a prefix without a `/permalink/<digit>` match, then `/permalink/<digits>` and a non-digit tail, yields exactly those digits. |
| ScannerBot.PostsTakesPrecedence | fb-scanner-bot.js:253 | The posts pattern is tried first: `/permalink/1/posts/2` yields `2`, not `1`. |
| ScannerBot.DigitRunOf | fb-scanner-bot.js:253 | The digit run of digits followed by a non-digit is those digits. |
| ScannerBot.Eligible | fb-scanner-bot.js:275-304 | Every post sent is one of the posts, with text of at least 5 characters, an address and a keyword match. It is sent with its own `ExternalId`, and the keywords and category of its own match. Every valid post whose text matches is sent. |
| ScannerBot.EligibleAppend | fb-scanner-bot.js:275-304 | Selection proceeds post by post, in order. |
| ScannerBot.Take | fb-scanner-bot.js:168-172 | The cap keeps a prefix of at most maxPostsPerSession entries. |
| ScannerBot.SelectPosts | fb-scanner-bot.js:166-304 | The session sends the first maxPostsPerSession eligible posts, in order: each is valid, matched and carries its own id. It sends min(maxPostsPerSession, eligible) posts, none for a limit of 0 or less. When the limit is not reached, every valid matched post is sent. |

## Left out

- Browser driving: `humanMouseMove`, `humanClick`, `humanScroll`, `humanType` and `sleep` in lib/human-behavior.js steer a Puppeteer page and only sleep or move.
- `getRandomHeaders`, `testProxy` and `simulateNetworkConditions` in lib/proxy-rotation.js set page headers or open pages.
- The DOM scraping of `scrapeFacebook`, `scrapeReddit`, `runBot` and `sendToN8n` in fb-scanner-bot.js are browser and network I/O. The model takes the extracted post fields as input.
- File and database persistence are I/O, and their results are inputs where the logic depends on them:
  - the load and save methods of the learner and of the cache manager;
  - the Supabase queries of the stateful scanner;
  - the coordinator's lock file and shared state.
- Timers and process probes: the health monitoring of both the fault-tolerance layer and the coordinator, `getSystemHealth`, the memory and CPU handlers, `process.exit`, and the sleeping loops of lib/session-manager.js.
- The coordinator election and `forwardToCoordinator`, which are file and network I/O. `DistributeTask` on a non-coordinator returns only the forwarding answer.
- Reports that only assemble fields: `getLearningStats`, `getRiskReport`, `getSystemStatus`, `getCacheStats`, `getSessionStats`, `generateSessionReport`, `getDatabaseStats`.
- `DistributedCoordinator.GetSystemStats`: the success rate is the integer number of tenths of a percent, not the formatted `toFixed(1) + '%'` string.
- `isWorkingDay` takes the day name as a parameter, because the source's `toLocaleDateString` option is not a valid value.
- `executeScrapingTask` requires a module export that does not exist, so it is modelled as always failing with that error.
- `CacheManager.PostKey`: the MD5 hash is taken as injective and modelled as the identity on the hash input. Collisions are not modelled.
- `Common.Lower`: `toLowerCase` is modelled on ASCII letters only. The keyword tables contain Polish letters, whose case mapping is not modelled.
- Floating point: all non-integer arithmetic is exact `real` arithmetic. Rounding of IEEE doubles is not modelled.
- NaN and Infinity: the zero-mean divisions of `calculateTrend` and `analyzeRiskTrend`, and the 0/0 ban rate, are written out as guards that give the outcome JavaScript's comparisons give. The empty-history average of `getRiskReport` is not modelled.
- `RiskPrediction.TimingRisk`: session data is a map from keys to numbers or objects of numbers. JavaScript's coercion of strings and other values is not modelled, so such values count as absent.
- `CacheManager.CacheManager.ProcessPostsWithDuplicateFilter`: the new key sets are stated as subsets of the old keys plus the marked posts, not equalities, because an eviction may run in between.
- `CacheManager.CacheManager.MarkPostProcessed`: says the post stays processed only when it is newer than every other entry, the case where eviction cannot remove it.
- `SessionManager.BaseMinutes`: an interval object whose min or max is missing or 0 gives NaN in the source. The model requires both to be non-zero.
- `BehavioralLearning.CalculateTrend`: its own contract states only the short-series case. The comparisons for each sign of the first mean are stated by `TrendAgainstFirstHalf`, `TrendAgainstZeroFirstHalf`, `TrendAgainstNegativeFirstHalf` and `ConstantSeriesIsStable`.
- `ScannerBot.Valid`: JavaScript's `.length` counts UTF-16 code units, while Dafny strings count Unicode characters. A text with characters outside the Basic Multilingual Plane (emoji) is longer in the source, so "at least 5 characters" can reject a text that the source accepts.
- `ScannerBot.Eligible`: inherits the character count of `Valid`, not the UTF-16 length.
- `ScannerBot.SelectPosts`: inherits the character count of `Valid`, not the UTF-16 length.
- `CacheManager.Prefix`: `substring(0, n)` counts UTF-16 code units in the source and characters here. The two prefixes differ when the text holds characters outside the Basic Multilingual Plane.
- `CacheManager.PostKey`: the 200-unit text prefix is taken in characters, as in `Prefix`, so such a text can get a different key than in the source.
- `CacheManager.RecordOf`: the 100-unit preview is taken in characters, as in `Prefix`.
- `CacheManager.CacheManager.RemoveOldEntries`: the cutoff is `now` minus whole 24-hour days. The source's `setDate` steps calendar days in local time, which differ by an hour across a daylight-saving change.
- `SessionManager.IntervalBounds`: requires a positive multiplier. A configured peak multiplier of 0 divides to Infinity in the source, and a negative one gives a negative interval.
- `SessionManager.RandomInterval`: requires a positive multiplier, for the reason given for `IntervalBounds`.
- `StatefulScanner.KeptRows`: the cutoff is `now` minus whole hours of 3,600,000 ms. The source's `setHours` steps hours in local time, which can differ by an hour across a daylight-saving change.
- `StatefulScanner.LoadedIds`: inherits the fixed-length hours of `KeptRows`.
- `DistributedCoordinator.RunTask`: the scrape error text is the first line of Node's `MODULE_NOT_FOUND` message. The "Require stack" lines that Node appends are not modelled.
- `HumanBehavior.DelayFor`: the table is a map with no inherited keys. In the source a kind such as `toString` finds a property of the object prototype and gives a NaN delay, where the model gives the 1000-3000 ms fallback.
- Concurrency: the async methods are modelled as running one at a time. Interleavings at `await` points are not modelled.

## Findings

| source | as written | input that shows it | evidently intended | confidence | as-written member | corrected member |
|---|---|---|---|---|---|---|
| lib/session-manager.js:161-177 | `waitForActiveHours` waits until `safety.activeHoursStart \|\| 8`, while `isActiveHours` reads `safety.activeHours.start \|\| 8` | window `activeHours` = 10-22 with no `activeHoursStart`, clock at 23:00: it waits 9 hours and wakes at 8:00, still outside the window | wait until the window's own start hour, so that the bot wakes inside the window | not executed | SessionManager.WaitAsWrittenWakesOutsideWindow | SessionManager.HoursToWaitReachesWindow |
