# market-dashboard-proxy: the indicator decision layer

A model of the decision layer of the market dashboard's `/api/data` handler
(`market-dashboard-proxy/api/data.py`). This layer has three parts:

- `analyze_indicator` classifies one indicator. Its inputs are the indicator's name, raw value, fetcher error message and extra fields. It returns a display value, a status, a score in {-1, 0, 1}, a colour class, an error and an explanation.
- `get_overall_assessment` turns the total score and the number of valid indicators into one of four verdicts.
- The handler's counting loop classifies every entry of the indicator table. It stores each result by name and adds up the scores of the eligible entries.

The fetchers are not modelled. The value and error each one returns are inputs to the model.

Files:

- `wrappers.dfy`: the `Option` type stands for Python's `None`-or-value. The `Result` type stands for a conversion that either returns a value or raises.
- `indicator.dfy` (module `Indicator`): the classifier.
  - A raw value is `Absent` (`None`), `Num(x)` or `Unparsable(text)`. `Num(x)` is a finite value `float()` accepts, numeric strings included. `Unparsable(text)` is a value `float()` rejects. The model treats every `Unparsable` value as rejected, so a numeric string must be given as `Num`, never as `Unparsable`.
  - Display values stay symbolic: `Fixed(x, n)` is `f"{x:.nf}"`, `Repr(x)` is `str(x)` and `Text(s)` is a literal text. So "N/A" and "오류" are the only sentinel displays.
  - Error messages follow Python truthiness: `None` and `""` are not errors when the classifier tests `if final_error`.
- `overall.dfy` (module `Overall`): the aggregator with its threshold `max(2, n // 4)`.
- `dashboard.dfy` (module `Dashboard`): the counting loop, written as a method with loop invariants. Its specification functions are `CountedScore` and `CountedNumber`.

The code has two threshold tables: "Market P/E" and "ISM PMI". Every other name reaches the "알 수 없음" (unknown) fallback with score 0. This leads to three proved consequences:

- Only P/E and PMI can score. With distinct names the total is always between -2 and 2 (`TotalAtMostTwo`).
- With twelve or more valid indicators the threshold is at least 3, so the verdict is always the mixed one (`ManyIndicatorsAreMixed`). The handler's table has twelve entries.
- The four trend/breadth names ("Market Trend (MA)", "Market Breadth (RSP vs SPY)", "Oil Trend (USO)", "Gold Trend (GLD)") skip the no-data bucket. They also skip the counting loop's sentinel test. So without an error they are always counted, with score 0 (`TrendCountsWithZero`).

The error message is tested in two different ways:

- The classifier tests its truthiness.
- The counting loop tests `is None`.

So an empty error message `""` is not classified as an error, but the entry is never counted (`EmptyErrorNeverCounted`).

## Model

| member | source | states |
|---|---|---|
| `Indicator.ToFloat` | market-dashboard-proxy/api/data.py:142-157 | `float(value)` succeeds exactly on numeric values and returns that number; otherwise it raises with a non-empty message |
| `Indicator.Shown` | market-dashboard-proxy/api/data.py:155 | the unknown-name display is a sentinel exactly when the value is `None` or a text equal to "N/A" or "오류" |
| `Indicator.PriceEarningsBand` | market-dashboard-proxy/api/data.py:143-145 | below 18 scores 1 (positive), above 25 scores -1 (negative), and 18 to 25 inclusive scores 0 (neutral), each band with its own status; the status is never "데이터 없음" |
| `Indicator.PmiBand` | market-dashboard-proxy/api/data.py:150-153 | four disjoint bands cover every real: above 55 scores 1, below 48 scores -1, 50 to 55 scores 0 with "확장 약함", and 48 to below 50 scores 0 with "위축 약함"; each status holds exactly in its band |
| `Indicator.FormatFailure` | market-dashboard-proxy/api/data.py:157 | a conversion failure is an error: display "오류", score 0, colour 'error', the exception text as the error and after the "값 형식 오류: " prefix in the status |
| `Indicator.ErrorBucket` | market-dashboard-proxy/api/data.py:134-135 | a truthy error message gives display "오류", score 0 and colour 'error', keeps the message as the error and puts it after the "오류: " prefix in the status |
| `Indicator.NoDataBucket` | market-dashboard-proxy/api/data.py:136-137 | with no truthy error, the no-data bucket is a neutral "N/A" (a sentinel) with status "데이터 없음", score 0 and the message passed through |
| `Indicator.Evaluate` | market-dashboard-proxy/api/data.py:139-158 | the try block. A numeric P/E takes the P/E table's status, score and colour and is shown to 2 places. A numeric PMI takes the PMI table's and is shown to 1 place. A P/E or PMI value that is not numeric gives an error with display "오류", score 0 and a non-empty error. Every other name gives "알 수 없음", `str(value)`, neutral, score 0. The status is never "데이터 없음" |
| `Indicator.Classify` | market-dashboard-proxy/api/data.py:134-158 | every result of the branch chain is consistent: score in {-1, 0, 1}, colour 'error' exactly when the error is truthy, no-data scores 0. A truthy message takes the error bucket. The status is "데이터 없음" exactly for a missing value outside the trend names (when there is no error) |
| `Indicator.Analyze` | market-dashboard-proxy/api/data.py:123-161 | score in {-1, 0, 1}. Score 0 when the error is truthy, when the status is "데이터 없음" or when the name is neither P/E nor PMI. Colour 'error' exactly when the error is truthy. The error bucket for any truthy message, whatever the extra fields. The no-data bucket for missing values outside the trend names. The unknown bucket with "N/A" for trend names without a value. The unknown bucket with `str(value)` for other names with a value. A format error for a rejected P/E or PMI value |
| `Indicator.ClampIsRedundant` | market-dashboard-proxy/api/data.py:160 | the final clamp never changes the result: every error or no-data branch has already set the score to 0 |
| `Indicator.KwargsIgnored` | market-dashboard-proxy/api/data.py:128-132 | `price`, `ma50`, `ma200`, `change_1m` and `compare_data` are read but never influence the result |
| `Indicator.PriceEarningsClassified` | market-dashboard-proxy/api/data.py:140-145 | for every real P/E and every non-error message, the display is the value to 2 places and exactly one band's score, colour and status applies |
| `Indicator.PmiAllReals` | market-dashboard-proxy/api/data.py:147-153 | for every real PMI and every non-error message, the display is the value to 1 place and exactly one of the four bands' score, colour and status applies |
| `Indicator.PmiClassified` | market-dashboard-proxy/api/data.py:147-153 | PMI 56.0 scores 1, 47.0 scores -1, and 49.0 and 50.5 both score 0 but with different statuses |
| `Overall.Threshold` | market-dashboard-proxy/api/data.py:166 | the threshold is at least 2, equals 2 below eight indicators, and is the floor of n/4 from eight on |
| `Overall.OverallAssessment` | market-dashboard-proxy/api/data.py:163-170 | zero indicators give "데이터 부족" (neutral) for every total; otherwise exactly one of positive (total at or above the threshold), negative (at or below its negation) or mixed applies |
| `Overall.MonotoneInTotal` | market-dashboard-proxy/api/data.py:166-169 | for a fixed count, raising the total never lowers the verdict |
| `Overall.Symmetric` | market-dashboard-proxy/api/data.py:166-168 | a total is positive exactly when its negation is negative |
| `Overall.EightIndicatorsBoundary` | market-dashboard-proxy/api/data.py:166-167 | with eight indicators a total of 2 is positive (inclusive), 1 is mixed and -2 is negative |
| `Dashboard.KwargsFor` | market-dashboard-proxy/api/data.py:221-224 | only the four trend/breadth names get keyword arguments, with the key sets the source lists; each is the entry's field of that name, except `change_1m`, which is the breadth entry's value |
| `Dashboard.AnalyzeEntry` | market-dashboard-proxy/api/data.py:226 | classifying an entry gives what the branch chain decides, whatever keyword arguments it got, and the result is consistent |
| `Dashboard.Counts` | market-dashboard-proxy/api/data.py:229-231 | an entry is counted only with no error at all and a status other than "데이터 없음"; for the trend/breadth names that is enough, for every other name the display must also not be "N/A" or "오류" |
| `Dashboard.Classified` | market-dashboard-proxy/api/data.py:220-226 | classifying the table keeps its length, order and names, and every score lies in {-1, 0, 1} |
| `Dashboard.ScoreIndicators` | market-dashboard-proxy/api/data.py:220-233 | the loop records every entry's classification under its name; the total is the sum of the counted scores and the valid count is the number of counted entries; the total's magnitude is bounded both by that count and by 2 |
| `Dashboard.TallyBound` | market-dashboard-proxy/api/data.py:231-233 | when every score is in {-1, 0, 1}, the total's magnitude is at most the number of counted nonzero scores, which is at most the number counted |
| `Dashboard.TallyAppend` | market-dashboard-proxy/api/data.py:220-233 | the tallies of two consecutive runs of entries add up |
| `Dashboard.UncountedIgnored` | market-dashboard-proxy/api/data.py:229-233 | an ineligible entry changes neither the total nor the valid count, wherever it stands in the table |
| `Dashboard.TotalAtMostTwo` | market-dashboard-proxy/api/data.py:229-233 | with distinct names only P/E and PMI can score, so the total lies between -2 and 2 |
| `Dashboard.ManyIndicatorsAreMixed` | market-dashboard-proxy/api/data.py:220-236 | with twelve or more valid indicators the verdict is always the mixed one |
| `Dashboard.FewIndicatorsAreNeutral` | market-dashboard-proxy/api/data.py:220-236 | with fewer than two valid indicators the verdict is always neutral ("데이터 부족" or mixed) |
| `Dashboard.EligibleIff` | market-dashboard-proxy/api/data.py:229-231 | a classification is counted exactly when the error is `None` and one of these holds: the name is a trend/breadth name, the value is numeric, or the value is an unparsable text that is not "N/A" or "오류" under a name other than P/E and PMI |
| `Dashboard.TrendCountsWithZero` | market-dashboard-proxy/api/data.py:230 | a trend/breadth entry with no error and no value is counted, with score 0 and display "N/A" |
| `Dashboard.EmptyErrorNeverCounted` | market-dashboard-proxy/api/data.py:229 | an empty error message does not produce the error bucket, yet the entry is never counted |

## Left out

- Data fetchers (`get_multiple_yf_data`, `get_etf_pe_ratio`, `get_fear_greed_index`, `get_fred_latest_data`, `get_fred_yield_spread`, data.py:28-117) are left out. They are network I/O plus pandas moving-average, percent-change and subtraction arithmetic. Their `(value, error)` results are inputs (`IndicatorData`).
- The FRED credential and client set-up from the environment (data.py:12-24) is left out. It is process configuration. Its effect reaches the model only as an error input.
- Flask routing, `jsonify`, the `last_updated` timestamp and `processing_time_ms` (data.py:173-249) are left out. They are framework and clock code. The assembly of the indicator table (data.py:196-217) is left out too: the table is an input of `ScoreIndicators`.
- Exact decimal rendering (`f"{:.2f}"`, `f"{:.1f}"`, `str(value)`) is kept symbolic as `Fixed` and `Repr`. These never equal a sentinel text.
- The exception texts of `float()` are modelled as fixed non-empty messages. The model does not reproduce CPython's wording for every argument type.
- `Value` represents only finite numbers. `float()` also accepts NaN and ±inf ("nan", "inf", numpy NaN), and `get_etf_pe_ratio` (data.py:75-76) would pass such a value on. The model does not represent these values. In the source, a NaN P/E fails both comparisons and lands in "중립적" (data.py:143-145). A NaN PMI lands in "중립적 (제조업 위축 약함)" (data.py:153). ±inf fall into the extreme bands.
- `Value`: a numeric string is modelled as `Num`, and its `str()` rendering in the unknown-name branch is not distinguished from that of a number.
- The catch-all `except Exception` (data.py:158) is left out. No modelled path can raise anything other than the conversion failure.
- `None` is listed among the display sentinels at data.py:230, but it is never tested: the classifier's display value is always a string.
- `public/script.js` (browser rendering) is not part of this model.
