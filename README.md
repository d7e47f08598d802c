# Forecast and reorder rule of ml-agent-api

This project models the decision logic of the `/forecast_and_reorder` endpoint of
ml-agent-api (`main.py`). Given a product name, its weekly sales history and the stock
on hand, the handler:

1. refuses a history shorter than three weeks with the error body
   `"Not enough sales history"`;
2. forecasts next week's demand as the mean of the last three weeks, inflated by a 10%
   buffer and truncated to an integer;
3. labels the trend `"increasing"` when the last week sold more than the week before,
   and `"stable"` otherwise;
4. recommends `"reorder"` with quantity `forecast - stock + 5` when stock is below the
   forecast, and `"do_nothing"` with quantity 0 otherwise.

Two modules:

- `PyArith` (`pyarith.dfy`): Python's `sum` over a list of ints, and `int()` of a
  quotient, which truncates toward zero. `IsTruncatedQuotient` is the reference
  definition of truncation; `TruncDiv` computes it with Dafny's Euclidean `/`.
- `Forecast` (`forecast.dfy`): the request and response records, the forecaster
  (`NextWeek`, `TrendOf`), the reorder decision (`Decide`), the whole handler
  (`ForecastAndReorder`) and the lemmas about them.

The float expression `int(sum(sales[-3:]) / 3 * 1.1)` is modelled exactly as the
truncation toward zero of `11 * t / 30`, where `t` is the sum of the last three sales.
This is an assumption about IEEE doubles: it holds for moderate magnitudes. When `30`
divides `t`, the double `1.1` lies slightly above 11/10, so the float product is no
closer to zero than the exact integer (for `t = -510` it is -187.00000000000003), and
truncation toward zero still yields that integer. Otherwise the exact quotient is at least 1/30 away from an
integer, far more than the rounding error of two double operations on small numbers.
For sums near 2^50 and beyond the two may differ; the model does not capture that.

`main.py` has no lead time, minimum order quantity, safety stock, shrinking window,
zero forecast for an empty history, or `"declining"` trend; the model follows the
code. The `Declining` constructor of `Trend` is kept only so that the contract-level
statement "the handler never reports declining" can be written down.

## Model

| member | source | states |
|---|---|---|
| `PyArith.Sum` | main.py:23 | Python's `sum`: 0 for the empty list, and non-negative whenever every element is |
| `PyArith.SumOfThree` | main.py:23 | `sum` of a three-element slice is the sum of its three elements |
| `PyArith.TruncDiv` | main.py:24 | the result is the truncation toward zero of `n / d` (reference predicate `IsTruncatedQuotient`), on both signs of `n` |
| `PyArith.TruncatedQuotientUnique` | main.py:24 | any integer meeting the truncation predicate equals `TruncDiv`, so the predicate determines `int(n / d)` |
| `PyArith.TruncDivMonotone` | main.py:24 | truncating division by a positive number is monotone in the numerator |
| `Forecast.RecentTotal` | main.py:23 | `sum(sales[-3:])` is the sum of the last three sales |
| `Forecast.NextWeek` | main.py:23-24 | the forecast is the truncation toward zero of 11/30 of the sum of the last three sales |
| `Forecast.TrendOf` | main.py:25 | `Increasing` exactly when the last sale exceeds the previous one, `Stable` exactly otherwise, never `Declining` |
| `Forecast.Decide` | main.py:28-33 | `Reorder` exactly when stock is below the forecast; then stock plus quantity is forecast plus 5, so quantity is at least 6; `DoNothing` has quantity 0; quantity is never negative |
| `Forecast.ForecastAndReorder` | main.py:16-40 | error exactly for histories shorter than 3, with the handler's message; otherwise the product name is echoed and forecast, trend, action and quantity obey the rules above |
| `Forecast.ShortHistoryIsError` | main.py:20-21 | a history shorter than 3 yields the error response and nothing else, whatever the stock |
| `Forecast.OlderSalesIrrelevant` | main.py:23-25 | changing any sale older than the last three leaves the whole response unchanged |
| `Forecast.NonNegativeForecast` | main.py:23-24 | for non-negative sales the forecast equals floor(11 * (s[-3] + s[-2] + s[-1]) / 30) and is non-negative |
| `Forecast.ForecastMonotone` | main.py:23-24 | raising any of the last three sales never lowers the forecast |
| `Forecast.DecideMonotoneInStock` | main.py:28-33 | more stock never gives a larger quantity; once do-nothing, the action stays do-nothing as stock rises; two stock levels get different actions exactly when the forecast lies above the lower and at most the higher, so the one switch is at stock == forecast |
| `Forecast.HandlerMonotoneInStock` | main.py:28-33 | with the history fixed, raising stock never raises the handler's reorder quantity |
| `Forecast.ExampleCovered` | main.py:19-33 | [10, 12, 14] with stock 20 gives forecast 13, increasing, do nothing, quantity 0; [10, 12] gives the error |
| `Forecast.ExampleReorder` | main.py:23-33 | [4, 5, 9] gives forecast 6: do nothing at stock 8, reorder 7 units at stock 4 |

## Left out

- The FastAPI application, route decorator and async wrapper (main.py:1-6, 14-15): HTTP plumbing.
- `uvicorn.run` (main.py:44-45): process and network I/O.
- Pydantic validation of `ForecastRequest` (main.py:8-12): library schema checking; only its fields are modelled, as a plain record.
- The `gain` field (main.py:12): the logic never reads it.
- The `confidence: 0.9` entry of the response (main.py:41): a float placeholder constant, not computed.
- Forecast.NextWeek: uses exact rational truncation in place of float arithmetic; it does not model double rounding for sums of very large magnitude (see above), nor the OverflowError the handler raises once `t / 3 * 1.1` exceeds the largest double (about 1.8e308), from the division or from `int()` of infinity; there the model still returns a `Recommendation`.
