/** The forecast-and-reorder rule of the `/forecast_and_reorder` endpoint: a guard on
    the length of the sales history, a three-period moving average inflated by a 10%
    buffer, a trend label read off the last two periods, and a reorder decision that
    tops stock up to the forecast plus a fixed margin of 5 units. */
module Forecast {
  import opened PyArith

  /** Number of most recent periods averaged; also the shortest usable history. */
  const Window: nat := 3

  /** Fixed number of units added on top of the shortfall when reordering. */
  const Margin: int := 5

  const NotEnoughHistory: string := "Not enough sales history"

  /** The fields of a request the rule reads (the unused `gain` is not modelled). */
  datatype ForecastRequest = ForecastRequest(productName: string, salesHistory: seq<int>, stock: int)

  /** Trend labels of the response. The rule only ever produces `Increasing` and
      `Stable`; `Declining` names the label it never emits. */
  datatype Trend = Increasing | Declining | Stable

  datatype Action = Reorder | DoNothing

  datatype Decision = Decision(action: Action, reorderQty: int)

  /** The handler's reply: an error body, or the recommendation it returns. */
  datatype Response =
    | Error(message: string)
    | Recommendation(productName: string, nextWeek: int, trend: Trend, action: Action, reorderQty: int)

  /** The sum of the last `Window` sales, `sum(sales[-3:])`. */
  function RecentTotal(sales: seq<int>): (r: int)
    requires |sales| >= Window
    ensures r == sales[|sales| - 3] + sales[|sales| - 2] + sales[|sales| - 1]
  {
    SumOfThree(sales[|sales| - Window..]);
    Sum(sales[|sales| - Window..])
  }

  /** `int(sum(sales[-3:]) / 3 * 1.1)` in exact arithmetic: the average times 11/10 is
      11 * total / 30, truncated toward zero. */
  function NextWeek(sales: seq<int>): (r: int)
    requires |sales| >= Window
    ensures IsTruncatedQuotient(r, 11 * (sales[|sales| - 3] + sales[|sales| - 2] + sales[|sales| - 1]), 30)
  {
    TruncDiv(11 * RecentTotal(sales), 30)
  }

  /** `"increasing"` when the last sale exceeds the one before, else `"stable"`. */
  function TrendOf(sales: seq<int>): (r: Trend)
    requires |sales| >= 2
    ensures r == Increasing <==> sales[|sales| - 1] > sales[|sales| - 2]
    ensures r == Stable <==> sales[|sales| - 1] <= sales[|sales| - 2]
    ensures r != Declining
  {
    if sales[|sales| - 1] > sales[|sales| - 2] then Increasing else Stable
  }

  /** Reorder whenever stock is below the forecast, enough to cover the shortfall plus
      the margin; otherwise order nothing. */
  function Decide(forecast: int, stock: int): (d: Decision)
    ensures d.action == Reorder <==> stock < forecast
    ensures d.action == Reorder ==> stock + d.reorderQty == forecast + Margin && d.reorderQty >= Margin + 1
    ensures d.action == DoNothing ==> d.reorderQty == 0
    ensures d.reorderQty >= 0
  {
    if stock < forecast then Decision(Reorder, forecast - stock + Margin)
    else Decision(DoNothing, 0)
  }

  /** The whole handler body. */
  function ForecastAndReorder(req: ForecastRequest): (r: Response)
    ensures r.Error? <==> |req.salesHistory| < Window
    ensures r.Error? ==> r.message == NotEnoughHistory
    ensures r.Recommendation? ==>
      var s := req.salesHistory;
      && r.productName == req.productName
      && IsTruncatedQuotient(r.nextWeek, 11 * (s[|s| - 3] + s[|s| - 2] + s[|s| - 1]), 30)
      && (r.trend == Increasing <==> s[|s| - 1] > s[|s| - 2])
      && r.trend != Declining
      && (r.action == Reorder <==> req.stock < r.nextWeek)
      && (r.action == Reorder ==> r.reorderQty == r.nextWeek - req.stock + Margin)
      && (r.action == DoNothing ==> r.reorderQty == 0)
  {
    var sales := req.salesHistory;
    if |sales| < Window then
      Error(NotEnoughHistory)
    else
      var forecast := NextWeek(sales);
      var decision := Decide(forecast, req.stock);
      Recommendation(req.productName, forecast, TrendOf(sales), decision.action, decision.reorderQty)
  }

  /** A history shorter than the window yields only the error, whatever the stock. */
  lemma ShortHistoryIsError(req: ForecastRequest)
    requires |req.salesHistory| < Window
    ensures ForecastAndReorder(req) == Error(NotEnoughHistory)
  {
  }

  /** Changing a sale older than the last three leaves the whole response unchanged. */
  lemma OlderSalesIrrelevant(req: ForecastRequest, i: nat, v: int)
    requires i + Window < |req.salesHistory|
    ensures ForecastAndReorder(req.(salesHistory := req.salesHistory[i := v])) == ForecastAndReorder(req)
  {
  }

  /** For a non-negative history the forecast is Dafny's floor of 11 * total / 30,
      and is itself non-negative. */
  lemma NonNegativeForecast(sales: seq<int>)
    requires |sales| >= Window
    requires forall k :: 0 <= k < |sales| ==> sales[k] >= 0
    ensures NextWeek(sales) == (11 * (sales[|sales| - 3] + sales[|sales| - 2] + sales[|sales| - 1])) / 30
    ensures NextWeek(sales) >= 0
  {
  }

  /** Higher recent sales never lower the forecast. */
  lemma ForecastMonotone(s: seq<int>, t: seq<int>)
    requires |s| >= Window && |t| >= Window
    requires s[|s| - 3] <= t[|t| - 3] && s[|s| - 2] <= t[|t| - 2] && s[|s| - 1] <= t[|t| - 1]
    ensures NextWeek(s) <= NextWeek(t)
  {
  }

  /** More stock never asks for more units, and once stock reaches the forecast the
      action stays `DoNothing`: between two stock levels the action differs exactly
      when the forecast lies above the lower level and at most the higher one. */
  lemma DecideMonotoneInStock(forecast: int, stock1: int, stock2: int)
    requires stock1 <= stock2
    ensures Decide(forecast, stock2).reorderQty <= Decide(forecast, stock1).reorderQty
    ensures Decide(forecast, stock1).action == DoNothing ==> Decide(forecast, stock2).action == DoNothing
    ensures Decide(forecast, stock1).action != Decide(forecast, stock2).action <==> stock1 < forecast <= stock2
  {
  }

  /** The same for the whole handler: with the history fixed, raising stock never
      raises the reorder quantity. */
  lemma HandlerMonotoneInStock(req: ForecastRequest, stock: int)
    requires |req.salesHistory| >= Window && req.stock <= stock
    ensures ForecastAndReorder(req.(stock := stock)).reorderQty <= ForecastAndReorder(req).reorderQty
  {
  }

  /** Worked example: [10, 12, 14] averages 12, and 12 * 1.1 truncates to 13, which
      stock 20 covers; a two-week history is refused. */
  lemma ExampleCovered()
    ensures ForecastAndReorder(ForecastRequest("p", [10, 12, 14], 20))
         == Recommendation("p", 13, Increasing, DoNothing, 0)
    ensures ForecastAndReorder(ForecastRequest("p", [10, 12], 0)) == Error(NotEnoughHistory)
  {
    NonNegativeForecast([10, 12, 14]);
  }

  /** Worked example: [4, 5, 9] forecasts 6; stock 8 covers it, stock 4 reorders
      6 - 4 + 5 = 7 units. */
  lemma ExampleReorder()
    ensures ForecastAndReorder(ForecastRequest("p", [4, 5, 9], 8))
         == Recommendation("p", 6, Increasing, DoNothing, 0)
    ensures ForecastAndReorder(ForecastRequest("p", [4, 5, 9], 4))
         == Recommendation("p", 6, Increasing, Reorder, 7)
  {
    NonNegativeForecast([4, 5, 9]);
  }
}
