/**
 * The models blueprint: the 30-day forecast built on top of the loaded
 * feature table, the `/forecast` JSON route and the `/forecast/download` CSV
 * route. The trained models, the seeded random perturbation of the lag and
 * rolling features and the pandas aggregations are inputs: `Predictor` gives
 * the prediction and spread for one forecast day, `DailyMeans` the per-day
 * mean of a target over some rows, in date order.
 */
module ModelRoutes {
  import opened Wrappers
  import opened Text
  import opened Calendar
  import opened Routes
  import opened Stats
  import Frames

  /** A row of the loaded feature table, with the columns the routes read. */
  datatype Row = Row(date: Date, region: int, cpu: real, storage: real, users: real)

  function Value(row: Row, t: Target): real {
    match t
    case UsageCpu => row.cpu
    case UsageStorage => row.storage
    case UsersActive => row.users
  }

  /** Every date of the table is a calendar date (the table's dates are parsed when it is loaded). */
  predicate ValidRows(rows: seq<Row>) {
    forall i :: 0 <= i < |rows| ==> Valid(rows[i].date)
  }

  /** The calendar columns the forecast loop writes into each new feature row. */
  datatype CalendarFields = CalendarFields(month: int, dayofweek: int, dayofmonth: int, quarter: int, isWeekend: int)

  /** A model's output for one forecast day: the prediction and the spread of the rolling windows. */
  datatype Estimate = Estimate(predicted: real, std: real)

  /** The model for a target, given the history, the step number (0 to 29) and the new row's calendar fields. */
  type Predictor = (Target, seq<Row>, nat, CalendarFields) -> Estimate

  /** `groupby("date")[target].mean()` over the rows, one value per distinct date, in date order. */
  type DailyMeans = (seq<Row>, Target) -> seq<DailyMean>

  datatype DailyMean = DailyMean(date: Date, value: real)

  /** One entry of the forecast list. */
  datatype ForecastEntry = ForecastEntry(date: Date, predicted: real, lower95: real, upper95: real)

  /** `z_score` of the 95% interval. */
  const Z: real := 1.96

  /** The calendar fields of a forecast day. */
  function CalendarOf(d: Date): (c: CalendarFields)
    requires Valid(d)
    ensures c.month == d.month && c.dayofmonth == d.day && c.dayofweek == DayOfWeek(d)
    ensures 1 <= c.quarter <= 4 && (c.quarter - 1) * 3 < c.month <= c.quarter * 3
    ensures c.isWeekend == 1 <==> c.dayofweek >= 5
    ensures c.isWeekend == 0 || c.isWeekend == 1
  {
    var w := DayOfWeek(d);
    CalendarFields(d.month, w, d.day, Quarter(d.month), if w >= 5 then 1 else 0)
  }

  /**
   * The 95% band around a prediction: the lower end floored at 0 and, for
   * `usage_cpu` only, the upper end capped at 100.
   */
  function Band(t: Target, e: Estimate): (band: (real, real))
    ensures band.0 >= 0.0 && band.0 >= e.predicted - Z * e.std
    ensures band.0 == 0.0 || band.0 == e.predicted - Z * e.std
    ensures band.1 <= e.predicted + Z * e.std
    ensures band.1 == e.predicted + Z * e.std || (t == UsageCpu && band.1 == 100.0)
    ensures t == UsageCpu ==> band.1 <= 100.0
    ensures t != UsageCpu ==> band.1 == e.predicted + Z * e.std
  {
    var lower := e.predicted - Z * e.std;
    var upper := e.predicted + Z * e.std;
    var upper' := if t == UsageCpu && upper > 100.0 then 100.0 else upper;
    (if lower < 0.0 then 0.0 else lower, upper')
  }

  /** With a non-negative spread and a prediction inside the caps, the band contains the prediction. */
  lemma BandBrackets(t: Target, e: Estimate)
    requires e.std >= 0.0 && e.predicted >= 0.0
    requires t == UsageCpu ==> e.predicted <= 100.0
    ensures Band(t, e).0 <= e.predicted <= Band(t, e).1
  {
  }

  /** A `usage_cpu` prediction above 100 inverts the band: the bounds are not ordered in general. */
  lemma BandInversion()
    ensures Band(UsageCpu, Estimate(150.0, 0.0)) == (150.0, 100.0)
  {
  }

  /** The latest date in a non-empty table: `hist_df["date"].max()`. */
  function MaxDate(rows: seq<Row>): (last: Date)
    requires |rows| > 0 && ValidRows(rows)
    ensures Valid(last)
    ensures exists i :: 0 <= i < |rows| && rows[i].date == last
    ensures forall i :: 0 <= i < |rows| ==> Ord(rows[i].date) <= Ord(last)
    decreases |rows|
  {
    if |rows| == 1 then rows[0].date
    else
      var rest := MaxDate(rows[1..]);
      assert forall i :: 1 <= i < |rows| ==> rows[i] == rows[1..][i - 1];
      if Ord(rows[0].date) >= Ord(rest) then rows[0].date else rest
  }

  /** Forecast day `i` (0-based) of the loop: dated `last + (i + 1)` days. */
  function Step(rows: seq<Row>, t: Target, predict: Predictor, i: nat): ForecastEntry
    requires |rows| > 0 && ValidRows(rows)
  {
    var date := AddDays(MaxDate(rows), i + 1);
    var e := predict(t, rows, i, CalendarOf(date));
    var band := Band(t, e);
    ForecastEntry(date, e.predicted, band.0, band.1)
  }

  /**
   * `forecast_next_30_days`: thirty entries, one per day after the latest date
   * of the table. An empty table has no latest date, and the route fails.
   */
  function Forecast30(rows: seq<Row>, t: Target, predict: Predictor): (r: Option<seq<ForecastEntry>>)
    requires ValidRows(rows)
    ensures r.None? <==> |rows| == 0
    ensures r.Some? ==> |r.value| == 30
    ensures r.Some? ==> forall i :: 0 <= i < 30 ==> r.value[i] == Step(rows, t, predict, i)
  {
    if |rows| == 0 then None else Some(seq(30, i requires 0 <= i => Step(rows, t, predict, i)))
  }

  /** Forecast days are the days after the table's last date, one after another. */
  lemma StepDates(rows: seq<Row>, t: Target, predict: Predictor, i: nat)
    requires ValidRows(rows) && |rows| > 0
    ensures Step(rows, t, predict, i).date == AddDays(MaxDate(rows), i + 1)
    ensures Step(rows, t, predict, i + 1).date == NextDay(Step(rows, t, predict, i).date)
  {
  }

  /** Every forecast day is strictly later than every date of the table. */
  lemma StepAfterHistory(rows: seq<Row>, t: Target, predict: Predictor, i: nat, j: nat)
    requires ValidRows(rows) && |rows| > 0 && j < |rows|
    ensures Ord(rows[j].date) < Ord(Step(rows, t, predict, i).date)
  {
    var last := MaxDate(rows);
    AddDaysIncreasing(last, 0, i + 1);
  }

  /** The forecast day `i + 1` days on falls `i + 1` weekdays after the last date's. */
  lemma StepWeekday(rows: seq<Row>, t: Target, predict: Predictor, i: nat)
    requires ValidRows(rows) && |rows| > 0
    ensures DayOfWeek(Step(rows, t, predict, i).date) == (DayOfWeek(MaxDate(rows)) + (i + 1)) % 7
  {
    var last := MaxDate(rows);
    StepDates(rows, t, predict, i);
    WeekdayAfter(last, i + 1, Step(rows, t, predict, i).date);
  }

  lemma WeekdayAfter(last: Date, n: nat, date: Date)
    requires Valid(last) && date == AddDays(last, n)
    ensures DayOfWeek(date) == (DayOfWeek(last) + n) % 7
  {
    AddDaysWeekday(last, n);
  }

  /** Every band is floored at 0, and capped at 100 for `usage_cpu`. */
  lemma StepBand(rows: seq<Row>, t: Target, predict: Predictor, i: nat)
    requires ValidRows(rows) && |rows| > 0
    ensures Step(rows, t, predict, i).lower95 >= 0.0
    ensures t == UsageCpu ==> Step(rows, t, predict, i).upper95 <= 100.0
  {
  }

  /** `SERVICE_MAP`: the service names the forecast routes accept, and the target each predicts. */
  function ServiceName(t: Target): string {
    match t
    case UsageCpu => "compute"
    case UsageStorage => "storage"
    case UsersActive => "users"
  }

  function ServiceTarget(service: string): (r: Option<Target>)
    ensures r.Some? ==> ServiceName(r.value) == service
    ensures r.None? ==> forall t: Target :: ServiceName(t) != service
  {
    if service == "compute" then Some(UsageCpu)
    else if service == "storage" then Some(UsageStorage)
    else if service == "users" then Some(UsersActive)
    else None
  }

  /** `request.args.get(key, default, type=int)`: a value `int()` cannot read gives the default. */
  function ArgInt(args: seq<(string, string)>, key: string, default: Option<int>): (r: Option<int>)
    ensures ArgGet(args, key).None? ==> r == default
    ensures ArgGet(args, key).Some? && ParseInt(ArgGet(args, key).value).Some?
            ==> r == ParseInt(ArgGet(args, key).value)
    ensures ArgGet(args, key).Some? && ParseInt(ArgGet(args, key).value).None? ==> r == default
  {
    match ArgGet(args, key)
    case None => default
    case Some(v) => if ParseInt(v).Some? then ParseInt(v) else default
  }

  /** A request that passed validation. */
  datatype Request = Request(region: Option<int>, service: string, target: Target, horizon: nat)

  /** An error response: its status and its `error` message. */
  datatype Failure = Failure(status: int, error: string)

  /** How an f-string shows an optional value: `None` when absent. */
  function ShowOption(s: Option<string>): string {
    if s.Some? then s.value else "None"
  }

  function ServiceError(service: Option<string>): string {
    "Invalid service '" + ShowOption(service) + "'. Must be one of ['compute', 'storage', 'users']"
  }

  function HorizonError(horizon: int): string {
    "Invalid horizon '" + IntToString(horizon) + "'. Must be 7, 14, or 30"
  }

  function RegionError(region: int): string {
    "No data found for region '" + IntToString(region) + "'"
  }

  predicate ValidHorizon(h: int) {
    h == 7 || h == 14 || h == 30
  }

  /**
   * The query checks both forecast routes make, in their order: the service
   * first, then the horizon (30 when absent or unreadable).
   */
  function Validate(args: seq<(string, string)>): (r: Result<Request, Failure>)
    ensures var service := ArgGet(args, "service");
            service.None? || ServiceTarget(service.value).None? ==> r == Err(Failure(400, ServiceError(service)))
    ensures var service := ArgGet(args, "service");
            var horizon := ArgInt(args, "horizon", Some(30)).value;
            service.Some? && ServiceTarget(service.value).Some? && !ValidHorizon(horizon)
            ==> r == Err(Failure(400, HorizonError(horizon)))
    ensures var service := ArgGet(args, "service");
            service.Some? && ServiceTarget(service.value).Some? && ValidHorizon(ArgInt(args, "horizon", Some(30)).value)
            ==> r.Ok?
    ensures r.Ok? ==> && Some(r.value.service) == ArgGet(args, "service")
                      && ServiceTarget(r.value.service) == Some(r.value.target)
                      && r.value.horizon == ArgInt(args, "horizon", Some(30)).value
                      && ValidHorizon(r.value.horizon)
                      && r.value.region == ArgInt(args, "region", None)
  {
    var region := ArgInt(args, "region", None);
    var service := ArgGet(args, "service");
    var horizon := ArgInt(args, "horizon", Some(30)).value;
    if service.None? || ServiceTarget(service.value).None? then Err(Failure(400, ServiceError(service)))
    else if !ValidHorizon(horizon) then Err(Failure(400, HorizonError(horizon)))
    else Ok(Request(region, service.value, ServiceTarget(service.value).value, horizon))
  }

  /** The rows of one region (the `region_encoded` column), selected in table order. */
  function RegionRows(rows: seq<Row>, region: int): (r: seq<Row>)
    ensures forall x :: x in r <==> x in rows && x.region == region
    ensures |r| <= |rows|
  {
    Frames.Where(rows, (y: Row) => y.region == region)
  }

  /**
   * The region selection keeps table order and repeated rows: it selects
   * from two tables one after the other, and keeps a single row exactly
   * when it is of the region. The two facts determine the selection.
   */
  lemma RegionRowsAppend(a: seq<Row>, b: seq<Row>, x: Row, region: int)
    ensures RegionRows(a + b, region) == RegionRows(a, region) + RegionRows(b, region)
    ensures RegionRows([x], region) == if x.region == region then [x] else []
  {
    Frames.WhereAppend(a, b, (y: Row) => y.region == region);
    Frames.WhereSnoc([], x, (y: Row) => y.region == region);
    assert [] + [x] == [x];
  }

  /** The rows a request forecasts from: the region's rows, or the whole table when no region is given. */
  function SelectRows(rows: seq<Row>, region: Option<int>): (r: Result<seq<Row>, Failure>)
    ensures region.None? ==> r == Ok(rows)
    ensures region.Some? ==> (r.Err? <==> forall i :: 0 <= i < |rows| ==> rows[i].region != region.value)
    ensures region.Some? && r.Err? ==> r.error == Failure(404, RegionError(region.value))
    ensures region.Some? && r.Ok? ==> r.value == RegionRows(rows, region.value) && |r.value| > 0
  {
    match region
    case None => Ok(rows)
    case Some(g) =>
      var sel := RegionRows(rows, g);
      if |sel| == 0 then
        assert forall i :: 0 <= i < |rows| ==> rows[i].region != g by {
          forall i | 0 <= i < |rows| ensures rows[i].region != g {
            assert rows[i] in rows;
          }
        }
        Err(Failure(404, RegionError(g)))
      else
        assert sel[0] in rows;
        Ok(sel)
  }

  /** `iloc[-horizon:]` when there are at least `horizon` values, else all of them. */
  function PrevWindow(daily: seq<real>, horizon: nat): (w: seq<real>)
    ensures |w| == if |daily| >= horizon then horizon else |daily|
    ensures w == daily[|daily| - |w|..]
  {
    if |daily| >= horizon then daily[|daily| - horizon..] else daily
  }

  function Values(daily: seq<DailyMean>): (v: seq<real>)
    ensures |v| == |daily| && forall i :: 0 <= i < |daily| ==> v[i] == daily[i].value
  {
    seq(|daily|, i requires 0 <= i < |daily| => daily[i].value)
  }

  function Predictions(f: seq<ForecastEntry>): (v: seq<real>)
    ensures |v| == |f| && forall i :: 0 <= i < |f| ==> v[i] == f[i].predicted
  {
    seq(|f|, i requires 0 <= i < |f| => f[i].predicted)
  }

  /** The JSON body of a successful `/forecast` request. */
  datatype ForecastBody = ForecastBody(
    region: Option<int>, service: string, horizon: nat, forecasts: seq<ForecastEntry>,
    forecastMean: real, forecastSum: real, previousMean: real, previousSum: real,
    recommendedAdjustment: real, adjustmentPercent: real)

  /** A response: the route's success value, an error with its status, or the failure of an empty table (500). */
  datatype Response<T> = Success(body: T) | Rejected(failure: Failure) | ServerError

  /** The forecasts and the daily means a validated request works on, or the request's 404. */
  datatype Basis = Basis(forecasts: seq<ForecastEntry>, daily: seq<DailyMean>)

  /** The part both routes share after validation: the rows, the truncated forecast and the daily means. */
  function Prepare(rows: seq<Row>, req: Request, predict: Predictor, daily: DailyMeans): (r: Response<Basis>)
    requires ValidRows(rows) && ValidHorizon(req.horizon)
    ensures r.Rejected? <==> SelectRows(rows, req.region).Err?
    ensures r.Rejected? ==> r.failure == SelectRows(rows, req.region).error
    ensures r.ServerError? <==> req.region.None? && |rows| == 0
    ensures r.Success? ==>
              var sel := SelectRows(rows, req.region).value;
              && |sel| > 0
              && r.body.forecasts == Forecast30(sel, req.target, predict).value[..req.horizon]
              && r.body.daily == daily(sel, req.target)
  {
    match SelectRows(rows, req.region)
    case Err(f) => Rejected(f)
    case Ok(sel) =>
      assert ValidRows(sel) by {
        forall i | 0 <= i < |sel| ensures Valid(sel[i].date) {
          if req.region.Some? {
            assert sel[i] in RegionRows(rows, req.region.value);
          }
        }
      }
      match Forecast30(sel, req.target, predict)
      case None => ServerError
      case Some(f) => Success(Basis(f[..req.horizon], daily(sel, req.target)))
  }

  /** The `/forecast` route. */
  function ForecastRoute(rows: seq<Row>, args: seq<(string, string)>, predict: Predictor, daily: DailyMeans)
    : (r: Response<ForecastBody>)
    requires ValidRows(rows)
    ensures Validate(args).Err? ==> r == Rejected(Validate(args).error)
    ensures Validate(args).Ok? ==>
              var req := Validate(args).value;
              && (r.Rejected? <==> Prepare(rows, req, predict, daily).Rejected?)
              && (r.ServerError? <==> Prepare(rows, req, predict, daily).ServerError?)
    ensures r.Success? ==>
              var req := Validate(args).value;
              var basis := Prepare(rows, req, predict, daily).body;
              && r.body == Body(req, basis)
              && |r.body.forecasts| == req.horizon
  {
    match Validate(args)
    case Err(f) => Rejected(f)
    case Ok(req) =>
      match Prepare(rows, req, predict, daily)
      case Rejected(f) => Rejected(f)
      case ServerError => ServerError
      case Success(basis) => Success(Body(req, basis))
  }

  /**
   * The exact figures a route derives from the daily means and the forecast,
   * before any rounding.
   */
  datatype Figures = Figures(
    previousSum: real, previousMean: real, forecastSum: real, forecastMean: real,
    adjustment: real, adjustmentPercent: real, percentChange: real)

  /**
   * The totals and means of the last `horizon` daily means and of the
   * predictions, the adjustment the forecast total needs over the previous
   * total, that adjustment as a percentage of the previous total, and the
   * growth of the forecast total over the previous total; both percentages
   * are 0 unless the previous total is positive.
   */
  function FiguresOf(daily: seq<DailyMean>, f: seq<ForecastEntry>, horizon: nat): (g: Figures)
    ensures g.previousSum == Sum(PrevWindow(Values(daily), horizon))
    ensures g.forecastSum == Sum(Predictions(f))
    ensures g.adjustment == g.forecastSum - g.previousSum
    ensures g.previousSum <= 0.0 ==> g.adjustmentPercent == 0.0 && g.percentChange == 0.0
  {
    var prev := PrevWindow(Values(daily), horizon);
    var preds := Predictions(f);
    var prevSum, forecastSum := Sum(prev), Sum(preds);
    var growth := if prevSum > 0.0 then (forecastSum / prevSum - 1.0) * 100.0 else 0.0;
    Figures(prevSum, Mean(prev), forecastSum, Mean(preds), forecastSum - prevSum,
            PercentOf(forecastSum - prevSum, prevSum), growth)
  }

  /**
   * The means are the totals over the number of values (0 for none), and the
   * adjustment percentage is the adjustment as a share of a positive
   * previous total.
   */
  lemma FiguresShares(daily: seq<DailyMean>, f: seq<ForecastEntry>, horizon: nat)
    ensures var g := FiguresOf(daily, f, horizon);
            var prev := PrevWindow(Values(daily), horizon);
            && g.previousMean == Mean(prev)
            && g.forecastMean == Mean(Predictions(f))
            && (g.previousSum > 0.0 ==> g.adjustmentPercent * g.previousSum == g.adjustment * 100.0)
  {
  }

  /** The figures of one day of history and one forecast day. */
  lemma FiguresOfSingle(day: DailyMean, entry: ForecastEntry, horizon: nat)
    requires horizon >= 1
    ensures var g := FiguresOf([day], [entry], horizon);
            && g.previousSum == day.value
            && g.forecastSum == entry.predicted
            && g.adjustment == entry.predicted - day.value
  {
    assert PrevWindow(Values([day]), horizon) == [day.value];
    assert Predictions([entry]) == [entry.predicted];
    assert [day.value][..0] == [];
    assert Sum([day.value]) == day.value;
    assert [entry.predicted][..0] == [];
    assert Sum([entry.predicted]) == entry.predicted;
  }

  /** The growth of the forecast total and the adjustment percentage are the same number. */
  lemma GrowthIsAdjustment(daily: seq<DailyMean>, f: seq<ForecastEntry>, horizon: nat)
    ensures var g := FiguresOf(daily, f, horizon);
            g.percentChange == g.adjustmentPercent
  {
    var prev := PrevWindow(Values(daily), horizon);
    if Sum(prev) > 0.0 {
      GrowthShare(Sum(Predictions(f)), Sum(prev));
    }
  }

  lemma GrowthShare(forecast: real, prev: real)
    requires prev > 0.0
    ensures (forecast / prev - 1.0) * 100.0 == PercentOf(forecast - prev, prev)
  {
    assert (forecast - prev) / prev == forecast / prev - prev / prev;
  }

  /**
   * The JSON body for a validated request and its basis: the request echoed,
   * the forecast, and the figures to two decimals.
   */
  function Body(req: Request, basis: Basis): (b: ForecastBody)
    ensures b.region == req.region && b.service == req.service && b.horizon == req.horizon
    ensures b.forecasts == basis.forecasts
    ensures var g := FiguresOf(basis.daily, basis.forecasts, req.horizon);
            && Near(b.previousSum, g.previousSum) && Near(b.previousMean, g.previousMean)
            && Near(b.forecastSum, g.forecastSum) && Near(b.forecastMean, g.forecastMean)
            && Near(b.recommendedAdjustment, g.adjustment)
            && Near(b.adjustmentPercent, g.adjustmentPercent)
  {
    var g := FiguresOf(basis.daily, basis.forecasts, req.horizon);
    ForecastBody(req.region, req.service, req.horizon, basis.forecasts,
                 Round2(g.forecastMean), Round2(g.forecastSum), Round2(g.previousMean), Round2(g.previousSum),
                 Round2(g.adjustment), Round2(g.adjustmentPercent))
  }

  /** The CSV's risk indicator. */
  datatype Risk = Shortage | OverProvision | Sufficient {
    function Label(): string {
      match this
      case Shortage => "\U{1F534} Shortage"
      case OverProvision => "\U{1F7E1} Over-provision"
      case Sufficient => "\U{1F7E2} Sufficient"
    }
  }

  function CsvRisk(adjustmentPercent: real): Risk {
    if adjustmentPercent > 10.0 then Shortage
    else if adjustmentPercent < -10.0 then OverProvision
    else Sufficient
  }

  /** The three bands partition the line: more than 10% short, more than 10% over, or within. */
  lemma CsvRiskBands(p: real)
    ensures CsvRisk(p) == Shortage <==> p > 10.0
    ensures CsvRisk(p) == OverProvision <==> p < -10.0
    ensures CsvRisk(p) == Sufficient <==> -10.0 <= p <= 10.0
  {
  }

  /** A row of the exported CSV. */
  datatype CsvRow =
    | HistoryRow(date: Date, value: real)
    | ForecastRow(date: Date, value: real)
    | SummaryRow(previousSum: real, forecastSum: real, recommendedAdjustment: real,
                 adjustmentPercent: real, percentChange: real, risk: Risk)

  datatype CsvFile = CsvFile(filename: string, rows: seq<CsvRow>)

  /** `{service}_forecast_region_{region}.csv`. */
  function Filename(service: string, region: Option<int>): string {
    service + "_forecast_region_" + (if region.Some? then IntToString(region.value) else "None") + ".csv"
  }

  function HistoryRows(daily: seq<DailyMean>): (r: seq<CsvRow>)
    ensures |r| == |daily| && forall i :: 0 <= i < |r| ==> r[i] == HistoryRow(daily[i].date, daily[i].value)
  {
    seq(|daily|, i requires 0 <= i < |daily| => HistoryRow(daily[i].date, daily[i].value))
  }

  function ForecastRows(f: seq<ForecastEntry>): (r: seq<CsvRow>)
    ensures |r| == |f| && forall i :: 0 <= i < |r| ==> r[i] == ForecastRow(f[i].date, f[i].predicted)
  {
    seq(|f|, i requires 0 <= i < |f| => ForecastRow(f[i].date, f[i].predicted))
  }

  /** `.round(2)` on the daily means: every value to two decimals, the dates kept. */
  function Rounded(daily: seq<DailyMean>): (r: seq<DailyMean>)
    ensures |r| == |daily|
    ensures forall i :: 0 <= i < |daily| ==> r[i] == DailyMean(daily[i].date, Round2(daily[i].value))
  {
    seq(|daily|, i requires 0 <= i < |daily| => DailyMean(daily[i].date, Round2(daily[i].value)))
  }

  /** Means that already have two decimals are left as they are. */
  lemma RoundedExact(daily: seq<DailyMean>)
    requires forall i :: 0 <= i < |daily| ==> Cents(daily[i].value)
    ensures Rounded(daily) == daily
  {
    forall i | 0 <= i < |daily| ensures Rounded(daily)[i] == daily[i] {
      Round2Exact(daily[i].value);
    }
  }

  /** The CSV body: the daily history to two decimals, the forecast, and the summary of the two. */
  function CsvRows(daily: seq<DailyMean>, f: seq<ForecastEntry>, horizon: nat): seq<CsvRow> {
    var history := Rounded(daily);
    HistoryRows(history) + ForecastRows(f) + [Summary(history, f, horizon)]
  }

  /**
   * The summary row the CSV ends with, computed from the history as the CSV
   * holds it: the figures to two decimals, and the risk band of the
   * adjustment percentage before rounding.
   */
  function Summary(history: seq<DailyMean>, f: seq<ForecastEntry>, horizon: nat): (row: CsvRow)
    ensures row.SummaryRow?
    ensures var g := FiguresOf(history, f, horizon);
            && Near(row.previousSum, g.previousSum) && Near(row.forecastSum, g.forecastSum)
            && Near(row.recommendedAdjustment, g.adjustment)
            && Near(row.adjustmentPercent, g.adjustmentPercent) && Near(row.percentChange, g.percentChange)
            && row.risk == CsvRisk(g.adjustmentPercent)
  {
    var g := FiguresOf(history, f, horizon);
    SummaryRow(Round2(g.previousSum), Round2(g.forecastSum), Round2(g.adjustment),
               Round2(g.adjustmentPercent), Round2(g.percentChange), CsvRisk(g.adjustmentPercent))
  }

  /** The `/forecast/download` route. */
  function DownloadRoute(rows: seq<Row>, args: seq<(string, string)>, predict: Predictor, daily: DailyMeans)
    : (r: Response<CsvFile>)
    requires ValidRows(rows)
    ensures Validate(args).Err? ==> r == Rejected(Validate(args).error)
    ensures Validate(args).Ok? ==>
              var req := Validate(args).value;
              && (r.Rejected? <==> Prepare(rows, req, predict, daily).Rejected?)
              && (r.ServerError? <==> Prepare(rows, req, predict, daily).ServerError?)
    ensures r.Success? ==>
              var req := Validate(args).value;
              var basis := Prepare(rows, req, predict, daily).body;
              && r.body.filename == Filename(req.service, req.region)
              && r.body.rows == CsvRows(basis.daily, basis.forecasts, req.horizon)
  {
    match Validate(args)
    case Err(f) => Rejected(f)
    case Ok(req) =>
      match Prepare(rows, req, predict, daily)
      case Rejected(f) => Rejected(f)
      case ServerError => ServerError
      case Success(basis) =>
        Success(CsvFile(Filename(req.service, req.region), CsvRows(basis.daily, basis.forecasts, req.horizon)))
  }

  /**
   * The CSV is the daily history to two decimals, then one row per forecast
   * entry, then one summary row, and no summary row anywhere else.
   */
  lemma CsvLayout(daily: seq<DailyMean>, f: seq<ForecastEntry>, horizon: nat)
    ensures var csv := CsvRows(daily, f, horizon);
            && |csv| == |daily| + |f| + 1
            && (forall i :: 0 <= i < |daily| ==> csv[i] == HistoryRow(daily[i].date, Rounded(daily)[i].value))
            && (forall i :: 0 <= i < |f| ==> csv[|daily| + i] == ForecastRow(f[i].date, f[i].predicted))
            && csv[|csv| - 1].SummaryRow?
            && (forall i :: 0 <= i < |csv| - 1 ==> !csv[i].SummaryRow?)
  {
    CsvRowsSplit(daily, f, horizon);
    CsvForecastRows(daily, f, horizon);
  }

  /** The rows of the CSV, as the history, the forecast and the closing summary. */
  lemma CsvRowsSplit(daily: seq<DailyMean>, f: seq<ForecastEntry>, horizon: nat)
    ensures var history := Rounded(daily);
            var csv := CsvRows(daily, f, horizon);
            && |csv| == |daily| + |f| + 1
            && (forall i :: 0 <= i < |daily| ==> csv[i] == HistoryRow(daily[i].date, history[i].value))
            && csv[|csv| - 1].SummaryRow?
            && (forall i :: 0 <= i < |csv| - 1 ==> !csv[i].SummaryRow?)
  {
    var history := Rounded(daily);
    var last := Summary(history, f, horizon);
    assert CsvRows(daily, f, horizon) == HistoryRows(history) + ForecastRows(f) + [last];
    CsvShape(history, f, last);
  }

  /** The forecast rows of the CSV follow the history rows, one per forecast entry. */
  lemma CsvForecastRows(daily: seq<DailyMean>, f: seq<ForecastEntry>, horizon: nat)
    ensures var csv := CsvRows(daily, f, horizon);
            forall i :: 0 <= i < |f| ==> csv[|daily| + i] == ForecastRow(f[i].date, f[i].predicted)
  {
    forall i | 0 <= i < |f| ensures CsvRows(daily, f, horizon)[|daily| + i] == ForecastRow(f[i].date, f[i].predicted) {
      CsvForecastRow(daily, f, horizon, i);
    }
  }

  /** The CSV row of forecast entry `i`. */
  lemma CsvForecastRow(daily: seq<DailyMean>, f: seq<ForecastEntry>, horizon: nat, i: nat)
    requires i < |f|
    ensures CsvRows(daily, f, horizon)[|daily| + i] == ForecastRow(f[i].date, f[i].predicted)
  {
    var history := Rounded(daily);
    var h := HistoryRows(history);
    assert |h| == |daily|;
    ForecastPart(h, f, Summary(history, f, horizon), i);
  }

  /** A forecast row sits right after the history rows, whatever the closing row. */
  lemma ForecastPart(h: seq<CsvRow>, f: seq<ForecastEntry>, last: CsvRow, i: nat)
    requires i < |f|
    ensures (h + ForecastRows(f) + [last])[|h| + i] == ForecastRow(f[i].date, f[i].predicted)
  {
  }


  /** The layout of the rows around any closing summary row. */
  lemma CsvShape(daily: seq<DailyMean>, f: seq<ForecastEntry>, last: CsvRow)
    requires last.SummaryRow?
    ensures var csv := HistoryRows(daily) + ForecastRows(f) + [last];
            && |csv| == |daily| + |f| + 1
            && (forall i :: 0 <= i < |daily| ==> csv[i] == HistoryRow(daily[i].date, daily[i].value))
            && (forall i :: 0 <= i < |f| ==> csv[|daily| + i] == ForecastRow(f[i].date, f[i].predicted))
            && csv[|csv| - 1].SummaryRow?
            && (forall i :: 0 <= i < |csv| - 1 ==> !csv[i].SummaryRow?)
  {
    var h, g := HistoryRows(daily), ForecastRows(f);
    var csv := h + g + [last];
    forall i | 0 <= i < |csv| - 1 ensures !csv[i].SummaryRow? {
      if i < |h| {
        assert csv[i] == h[i];
      } else {
        assert csv[i] == g[i - |h|];
      }
    }
  }

  /** Both routes succeed on exactly the same requests, and a successful CSV holds `horizon` forecast rows. */
  lemma RoutesSucceedTogether(rows: seq<Row>, args: seq<(string, string)>, predict: Predictor, daily: DailyMeans)
    requires ValidRows(rows)
    ensures ForecastRoute(rows, args, predict, daily).Success? <==> DownloadRoute(rows, args, predict, daily).Success?
    ensures DownloadRoute(rows, args, predict, daily).Success? ==>
              |Prepare(rows, Validate(args).value, predict, daily).body.forecasts| == Validate(args).value.horizon
  {
  }

  /**
   * For the same request and data whose daily means already have two
   * decimals, the CSV's summary row carries the sums, adjustment and
   * adjustment percentage of the JSON body, its growth percentage is that same
   * percentage, and its risk is the band of the percentage before rounding.
   */
  lemma SummaryAgrees(req: Request, basis: Basis)
    requires forall i :: 0 <= i < |basis.daily| ==> Cents(basis.daily[i].value)
    ensures var body := Body(req, basis);
            var csv := CsvRows(basis.daily, basis.forecasts, req.horizon);
            var sum := csv[|csv| - 1];
            && sum.previousSum == body.previousSum
            && sum.forecastSum == body.forecastSum
            && sum.recommendedAdjustment == body.recommendedAdjustment
            && sum.adjustmentPercent == body.adjustmentPercent
            && sum.percentChange == body.adjustmentPercent
            && sum.risk == CsvRisk(FiguresOf(basis.daily, basis.forecasts, req.horizon).adjustmentPercent)
  {
    RoundedExact(basis.daily);
    GrowthIsAdjustment(basis.daily, basis.forecasts, req.horizon);
  }

  /**
   * Without two-decimal means the routes can disagree: two daily means of
   * 0.004 total 0.008, which the JSON body reports as 0.01, while the CSV
   * rounds each mean to 0 first and reports a previous total of 0.
   */
  lemma RoundingDiverges()
    ensures var req := Request(None, "compute", UsageCpu, 7);
            var basis := Basis([], [DailyMean(Date(2024, 1, 1), 0.004), DailyMean(Date(2024, 1, 2), 0.004)]);
            var csv := CsvRows(basis.daily, basis.forecasts, req.horizon);
            && Body(req, basis).previousSum == 0.01
            && csv[|csv| - 1].previousSum == 0.0
  {
    var req := Request(None, "compute", UsageCpu, 7);
    var daily := [DailyMean(Date(2024, 1, 1), 0.004), DailyMean(Date(2024, 1, 2), 0.004)];
    var basis := Basis([], daily);
    assert PrevWindow(Values(daily), 7) == [0.004, 0.004];
    SumPair(0.004, 0.004);
    assert (0.008 * 100.0 + 0.5).Floor == 1;
    assert Round2(0.008) == 0.01;
    assert (0.004 * 100.0 + 0.5).Floor == 0;
    var history := Rounded(daily);
    assert history == [DailyMean(Date(2024, 1, 1), 0.0), DailyMean(Date(2024, 1, 2), 0.0)];
    assert PrevWindow(Values(history), 7) == [0.0, 0.0];
    SumPair(0.0, 0.0);
    assert Round2(0.0) == 0.0;
  }

  /** One row of the March back-test: the date, the recorded value and the model's prediction. */
  datatype MarchPoint = MarchPoint(date: Date, actual: real, predicted: real)

  /** The rows dated in March, selected in table order. */
  function MarchRows(rows: seq<Row>): (r: seq<Row>)
    ensures forall x :: x in r <==> x in rows && x.date.month == 3
    ensures |r| <= |rows|
  {
    Frames.Where(rows, (y: Row) => y.date.month == 3)
  }

  /**
   * The March selection keeps table order and repeated rows: it selects from
   * two tables one after the other, and keeps a single row exactly when it
   * is dated in March.
   */
  lemma MarchRowsAppend(a: seq<Row>, b: seq<Row>, x: Row)
    ensures MarchRows(a + b) == MarchRows(a) + MarchRows(b)
    ensures MarchRows([x]) == if x.date.month == 3 then [x] else []
  {
    Frames.WhereAppend(a, b, (y: Row) => y.date.month == 3);
    Frames.WhereSnoc([], x, (y: Row) => y.date.month == 3);
    assert [] + [x] == [x];
  }

  /**
   * `predict_for_march`: nothing when the table has no March row (the routes
   * answer 404), otherwise one point per March row, with the model's
   * prediction for that row (`predict` takes the March rows and a position).
   */
  function PredictForMarch(rows: seq<Row>, t: Target, predict: (seq<Row>, nat) -> real): (r: Option<seq<MarchPoint>>)
    ensures r.None? <==> forall i :: 0 <= i < |rows| ==> rows[i].date.month != 3
    ensures r.Some? ==> var march := MarchRows(rows);
              && |r.value| == |march|
              && forall i :: 0 <= i < |march| ==>
                   r.value[i] == MarchPoint(march[i].date, Value(march[i], t), predict(march, i))
  {
    var march := MarchRows(rows);
    if |march| == 0 then
      assert forall i :: 0 <= i < |rows| ==> rows[i].date.month != 3 by {
        forall i | 0 <= i < |rows| ensures rows[i].date.month != 3 {
          assert rows[i] in rows;
        }
      }
      None
    else
      assert march[0] in rows;
      Some(seq(|march|, i requires 0 <= i < |march| => MarchPoint(march[i].date, Value(march[i], t), predict(march, i))))
  }
}
