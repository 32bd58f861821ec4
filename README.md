# Portfolio frontier dashboard — a Dafny model of its own arithmetic

The dashboard (`app.py`) shows the mean-variance efficient frontier of a set of
stocks, the tangency (max-Sharpe) portfolio, the capital market line (CML) and
a utility-maximising mix of the risk-free asset and the tangency portfolio.
All optimisation is done by an external optimiser library; the dashboard's own
logic is four small pieces, which this project models over exact `real`
arithmetic and proves properties of:

- **RiskAversionSurvey** (`survey.dfy`): six fixed lotteries; the user's
  certainty equivalent for each implies a quadratic-utility risk aversion
  `2 * (mu - answer) / sigma^2`; the six are summed (not averaged) and the sum is
  floored at 1e-6. The accumulation loop is a method proved equal to a
  recursive specification; the lemmas cover exact moments of the six lotteries,
  the inversion of `U = mu - A/2 * sigma^2` (both directions), monotonicity,
  the slider-range bounds `[1e-6, 827/1125]` and the default result 1e-6.
- **FrontierPoints** (`frontier.dfy`): `get_ef_points`, a loop that solves once
  per parameter value and appends `(ret, sigma)` to two parallel lists. The
  optimiser is a total function from (objective, value) to
  `Solved(perf) | OptimizationError | ValueError`, plus the performance the
  optimiser object holds. The loop is a method proved equal to a recursive
  specification; the lemmas cover lengths, order, skipping on
  `OptimizationError`, and what the `ValueError` fall-through appends.
- **CapitalAllocation** (`allocation.dfy`): the max-utility point
  `x = w_t * vol_tangent`, `ret = x * sharpe_tangent + rf`, the synthetic
  two-asset problem handed to the optimiser, its exact maximiser over the
  leverage band, and the effect of the covariance entry written at line 246.
- **Tickers** (`tickers.dfy`): the uploaded ticker list cut to its first 100
  entries, and the fall-back to cached data for a missing or empty list.

`reals.dfy` holds small facts about real products and squares; `outcomes.dfy`
holds the `Option` and `Result` datatypes.

Two behaviours of the code are modelled as written and reported under Findings:

- line 246 puts the tangency volatility `vol` where the covariance entry of the
  tangency asset needs its variance `vol^2`;
- the `ValueError` handler at lines 132-137 has no `continue`, so a point is
  still appended after the failed solve.

The max-utility volatility at lines 253-254 is the signed `w_t * vol`, negative
for a short tangency weight; the model keeps the sign.

## Model

| member | source | states |
|---|---|---|
| RiskAversionSurvey.Expected | app.py:47-57 | the expected payoff of a lottery, the slider maximum and default; its values for the six questions are stated by QuestionMoments |
| RiskAversionSurvey.Variance | app.py:58 | the variance of the payoff around the expected value; VarianceFactors and VariancePositive state its closed form and sign |
| RiskAversionSurvey.ImpliedA | app.py:60 | the coefficient 2 * (expected - answer) / variance; its meaning is stated by ImpliedAInvertsUtility |
| RiskAversionSurvey.InSliderRange | app.py:48-49 | six answers, each between 0 and its lottery's expected value, the range of the sliders |
| RiskAversionSurvey.DefaultAnswers | app.py:46-49 | the slider defaults are each lottery's expected value and lie in the slider range [0, expected value] |
| RiskAversionSurvey.VariancePositive | app.py:58 | a two-outcome lottery with both probabilities positive, summing to 1, and distinct payoffs has positive variance |
| RiskAversionSurvey.VarianceFactors | app.py:57-58 | the variance of such a lottery is pLose * pWin * (win - lose)^2 |
| RiskAversionSurvey.QuestionsWellPosed | app.py:33-38 | all six survey lotteries are proper two-outcome lotteries with positive variance, so the division at line 60 is always defined |
| RiskAversionSurvey.QuestionMoments | app.py:33-38 | the exact expected value and variance of each of the six lotteries (5/25, 500/250000, 1/9, 100/90000, 75/1875, 25/1875) |
| RiskAversionSurvey.ImpliedAInvertsUtility | app.py:54-60 | the implied coefficient makes the quadratic utility of the lottery equal to the answer, and it is the only coefficient that does |
| RiskAversionSurvey.SolveUtility | app.py:54-60 | mean - a/2 * variance == answer holds for exactly one a, namely 2 * (mean - answer) / variance |
| RiskAversionSurvey.ImpliedAAntitone | app.py:60 | a larger payment implies a smaller (or equal) risk aversion |
| RiskAversionSurvey.ImpliedABounds | app.py:48-60 | for an answer in [0, expected value] the implied coefficient lies in [0, 2 * expected / variance], and is 0 at the expected value |
| RiskAversionSurvey.FirstQuestionExample | app.py:33-60 | for the lottery (0.5: $0, 0.5: $10), expected value 5, variance 25; paying 0 implies 0.4, paying 5 implies 0 |
| RiskAversionSurvey.TotalImplied | app.py:51-62 | the running total after the first n questions: the sum of their implied coefficients, in question order |
| RiskAversionSurvey.TotalImpliedStep | app.py:57-62 | the moments one loop iteration computes give a positive variance, and adding its coefficient extends the running total by that question |
| RiskAversionSurvey.RawScore | app.py:51-62 | the total over all six questions, before the floor |
| RiskAversionSurvey.SurveyScore | app.py:64-65 | the floored result is at least 1e-6, equals the raw total when that is at least 1e-6, and is 1e-6 otherwise |
| RiskAversionSurvey.EstimateRiskAversion | app.py:51-65 | the loop accumulates the six implied coefficients and floors the sum: its result is the survey score, at least 1e-6, and the raw total whenever that reaches 1e-6 |
| RiskAversionSurvey.DefaultTotalIsZero | app.py:47-62 | with every answer at its slider default, every partial sum of implied coefficients is 0 |
| RiskAversionSurvey.DefaultScoreIsEpsilon | app.py:46-65 | leaving every slider at its default gives exactly 1e-6 |
| RiskAversionSurvey.TotalImpliedAntitone | app.py:51-62 | raising any answers never raises the sum of implied coefficients |
| RiskAversionSurvey.SurveyScoreAntitone | app.py:51-65 | raising any answers never raises the survey result |
| RiskAversionSurvey.MaxRawTotalValue | app.py:33-62 | with every answer 0 the raw total is 0.4 + 0.004 + 2/9 + 1/450 + 0.08 + 2/75 = 827/1125 |
| RiskAversionSurvey.TotalImpliedBounds | app.py:48-62 | with every answer in its slider range each partial sum lies between 0 and the all-zero partial sum |
| RiskAversionSurvey.SurveyScoreBounds | app.py:48-65 | over the whole slider range the raw total lies in [0, 827/1125] and the result in [1e-6, 827/1125] |
| FrontierPoints.Dispatch | app.py:120-129 | an objective is selected exactly for "utility", "risk" and "return", and they select the quadratic-utility, efficient-risk and efficient-return solves respectively |
| FrontierPoints.Step | app.py:119-141 | one iteration: OptimizationError leaves the lists and the held portfolio unchanged; a success becomes the held portfolio; otherwise the held portfolio's (ret, sigma) is appended to both lists; it fails exactly on a ValueError with nothing held |
| FrontierPoints.Run | app.py:118-141 | the loop only appends, appends to both lists equally, at most once per value, and fails only on a non-empty range |
| FrontierPoints.EfPoints | app.py:115-143 | the two returned lists have equal length, at most the number of parameter values; an unknown ef_param fails exactly when the range is non-empty |
| FrontierPoints.GetEfPoints | app.py:109-143 | the loop appending to `mus` and `sigmas` returns exactly EfPoints, with lists of equal length bounded by the range |
| FrontierPoints.RunAppend | app.py:118-141 | the loop over a concatenation is the loop over the first part continued over the second |
| FrontierPoints.OptimizationErrorSkipped | app.py:130-131 | a parameter value whose solve raises OptimizationError contributes nothing: removing it from the range gives the same result |
| FrontierPoints.SolvedPoints | app.py:118-141 | reference definition: the successful solves' (ret, sigma) in range order, two lists of equal length bounded by the range |
| FrontierPoints.RunWithoutValueErrors | app.py:118-141 | without a ValueError the loop succeeds and appends exactly the successful solves' points, in order |
| FrontierPoints.FrontierIsSolvedPoints | app.py:115-143 | without a ValueError the result is exactly the successful solves' (ret, sigma), in the order of the parameter values |
| FrontierPoints.RunKeepsHeldIsLast | app.py:132-141 | the portfolio the optimiser holds is always the last point appended |
| FrontierPoints.ValueErrorRepeatsLastPoint | app.py:132-141 | on a fresh optimiser a ValueError either fails (nothing solved yet) or appends a copy of the previous point |
| FrontierPoints.ValueErrorAppendsStalePoint | app.py:132-141 | concrete case: success at 0.2 then ValueError at 0.3 yields the point twice as written, once when skipping |
| FrontierPoints.EfPointsSkipping | app.py:130-137 | with skipping on both exceptions, the collection fails only for an unknown ef_param on a non-empty range |
| FrontierPoints.SolvedPointsAppend | app.py:118-141 | the successful points of a concatenation are those of the parts, concatenated |
| FrontierPoints.SkippingDropsFailedValues | app.py:130-137 | with skipping, a value whose solve raises either exception contributes nothing |
| FrontierPoints.SkippingAgreesWithoutValueErrors | app.py:130-141 | as written and with skipping agree whenever no solve raises ValueError |
| CapitalAllocation.ValidLeverage | app.py:87 | the leverage input accepts the whole numbers 1 to 10 |
| CapitalAllocation.CmlReturn | app.py:264 | the capital market line drawn in the figure: it passes through (0, rf) and, with a consistent Sharpe ratio, through the tangency point |
| CapitalAllocation.MaxUtilityPoint | app.py:253-256 | the point lies on the CML drawn at line 264; with w_t = 0 it is (rf, 0), with w_t = 1 its volatility is the tangency volatility |
| CapitalAllocation.CmlReturnIsWeightedMean | app.py:244-256 | when the Sharpe ratio is the tangency excess return per unit volatility, the CML return equals the weighted mean (1 - w_t) * rf + w_t * ret_tangent, and w_t = 1 gives the tangency point |
| CapitalAllocation.VolatilityWithinLeverage | app.py:87-254 | for leverage L in [1, 10] and 1 - L <= w_t <= L the volatility lies in [(1 - L) * vol, L * vol]; for L = 1 in [0, vol] |
| CapitalAllocation.CmlSystem | app.py:244-247 | the synthetic problem as written is a well-formed two-asset system |
| CapitalAllocation.CmlSystemIntended | app.py:244-247 | the synthetic problem with the variance in the covariance is a well-formed two-asset system |
| CapitalAllocation.FeasibleIsLeverageBand | app.py:247 | the bounds (1 - L, L) on both weights of a fully invested pair amount to 1 - L <= w_t <= L |
| CapitalAllocation.UtilityAsQuadratic | app.py:244-249 | the quadratic-utility objective of such a system is a one-dimensional concave quadratic in w_t with curvature A * cov[1][1] |
| CapitalAllocation.IntendedUtilityIsPointUtility | app.py:244-256 | with the variance in the covariance, the objective is exactly the quadratic utility of the reported CML point |
| CapitalAllocation.AsWrittenUtility | app.py:244-256 | as written, the objective differs from the utility of the reported point by A/2 * w_t^2 * (vol - vol^2) |
| CapitalAllocation.BestWeight | app.py:247-249 | the clamped unconstrained optimum lies within the bounds |
| CapitalAllocation.BestWeightMaximises | app.py:247-249 | the clamped optimum maximises the concave objective over the bounds |
| CapitalAllocation.BestWeightUnique | app.py:247-249 | every other weight in the bounds has a strictly lower objective, so the clamped optimum is the only maximiser |
| CapitalAllocation.OptimalWeight | app.py:247-249 | the optimum of the synthetic system lies within its bounds |
| CapitalAllocation.OptimalWeightMaximises | app.py:247-249 | that optimum maximises the system's quadratic utility over every feasible weight |
| CapitalAllocation.OptimalWeightUnique | app.py:247-249 | every other feasible weight has strictly lower utility: the optimum is unique |
| CapitalAllocation.AsWrittenWeight | app.py:244-249 | the tangency weight an exact optimiser returns for the system as written lies in [1 - L, L] |
| CapitalAllocation.AsWrittenWeightIsOptimal | app.py:244-249 | that weight maximises the objective of the system as written |
| CapitalAllocation.AsWrittenWeightIsUnique | app.py:244-249 | every other feasible weight scores strictly lower on the as-written objective, so this is the weight an exact optimiser returns |
| CapitalAllocation.IntendedWeight | app.py:244-249 | the weight optimising the system with the variance lies in [1 - L, L] |
| CapitalAllocation.IntendedWeightIsOptimal | app.py:244-256 | that weight maximises the utility of the reported CML point over the whole leverage band |
| CapitalAllocation.VolatilityForVarianceCounterexample | app.py:244-256 | concrete case: as written the weight is 0.5 (point (0.07, 0.1)), the utility-maximising weight 2.5 (point (0.27, 0.5)), which has higher utility; on the objective the optimiser is handed, 2.5 scores strictly below 0.5 |
| Tickers.Truncate | app.py:232 | the kept list is a prefix of the upload with at most 100 tickers: the whole upload when it has at most 100, exactly 100 otherwise |
| Tickers.UsesCachedData | app.py:171 | `not asset_list` holds for a missing list and for an empty one, and then the cached data is used |
| Tickers.SelectAssets | app.py:230-234 | a list is chosen exactly when a file was uploaded, and it is a prefix of the upload of at most 100 tickers |
| Tickers.TruncateIdempotent | app.py:232 | cutting an already cut list changes nothing |
| Tickers.DownloadedUniverseSize | app.py:171-234 | whenever data is downloaded for an uploaded list, that list has 1 to 100 tickers and is the upload's prefix |

## Left out

- `update_data_cache.py`: network downloads of prices and the risk-free rate, the library's CAPM returns and exponential covariance, and file writes; it has no logic of its own.
- The optimiser library (`max_sharpe`, `min_volatility`, `efficient_risk`, `efficient_return`, `max_quadratic_utility`, `portfolio_performance`): in FrontierPoints it is an arbitrary total function; in CapitalAllocation the tangency weight is an input, and the model states only what an exact maximiser of the posed problem returns.
- The model assumes an optimiser object keeps its last successful portfolio when a solve raises, and that asking a fresh object for its performance fails (`NoWeights`); both are the library's behaviour and are not visible in this source.
- `get_plotting_structures` (app.py:151-222): reading cached files, building the optimiser objects and the tangency and minimum-volatility solves are library calls and file I/O.
- The log-spaced risk grid (app.py:214-217) and the asset volatilities `sqrt(diag(cov))` (app.py:189): transcendental floating-point functions.
- Floating point: all arithmetic is exact over `real`; the guard 0.000001 is the exact real 1/1000000.
- The Streamlit and Plotly layer: sliders (their 0.1 step), the risk-aversion override at line 74, the leverage input at line 87 (its range 1-10 is kept as `ValidLeverage`), file upload and CSV parsing, the figures and `trace_specs`, and `st.cache_data`.
- Python name resolution in `get_ef_points`: `exceptions` and `warnings` are never imported, so any exception inside the `try` would become a NameError; the model follows the handlers' evident intent instead, and the warning itself is not modelled.
- The properties of the frontier itself (monotone returns and volatilities, at most 20 points, a feasible first point) depend on the optimiser and the risk grid, which are not modelled.

## Findings

| source | as written | input that shows it | evidently intended | confidence | as-written member | corrected member |
|---|---|---|---|---|---|---|
| app.py:132-139 | the ValueError handler warns but has no `continue`, so the optimiser's previous portfolio is appended again (or, on a fresh optimiser, the performance query fails) | a solve that succeeds at risk 0.2 with return 0.1, then raises ValueError at risk 0.3: the lists become [0.1, 0.1] and [0.2, 0.2] | skip the value, as the warning "Could not construct portfolio" says | medium, not executed | FrontierPoints.ValueErrorAppendsStalePoint | FrontierPoints.EfPointsSkipping |
| app.py:245-246 | the synthetic covariance holds the tangency volatility instead of its variance, so the optimiser maximises mean - A/2 * w_t^2 * vol instead of the utility of the point it reports | tangency return 0.12, volatility 0.2, Sharpe 0.5, rf 0.02, risk aversion 1, leverage 10: the optimum is w_t = 0.5, and 2.5 scores strictly lower on that objective, although it gives the reported point higher utility | covariance entry vol^2, so that the objective is the utility of the CML point | high, not executed | CapitalAllocation.VolatilityForVarianceCounterexample | CapitalAllocation.IntendedWeightIsOptimal |
