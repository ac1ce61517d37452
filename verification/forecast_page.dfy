/**
 * The forecast page: one service, horizon and region chosen from three
 * selectors; each change of any of them fetches the forecast from the
 * builder `model_endpoints` holds for the service; the reply fills the
 * forecast list and a summary whose money-like figures are fixed to two
 * decimals; and a risk label is derived from the summary. A failed fetch
 * empties the forecast and keeps the previous summary.
 */
module ForecastPage {
  import opened Wrappers
  import opened Text
  import Http
  import Routes
  import ModelApi
  import ModelRoutes
  import Calendar
  import opened Stats

  /** The fields of the forecast reply the page reads; `forecasts` may be absent. */
  datatype ForecastData<E> = ForecastData(
    forecasts: Option<seq<E>>, previousMean: real, previousSum: real, forecastMean: real,
    forecastSum: real, recommendedAdjustment: real)

  /** How the page reads a parsed reply; it throws on a body that is not an object, `null` say. */
  type Reader<!J, E> = J -> Http.Access<ForecastData<E>>

  /** The summary the page keeps: the reply's figures, some fixed to two decimals. */
  datatype Summary = Summary(
    previousMean: real, previousSum: real, forecastMean: real, forecastSum: real,
    recommendedAdjustment: real, percentChange: real, adjustmentPercent: real)

  /**
   * `((v / whole) * 100).toFixed(2)` when `whole` is positive, else 0: the
   * percentage to the nearest hundredth.
   */
  function Share(v: real, whole: real): (p: real)
    ensures whole <= 0.0 ==> p == 0.0
    ensures whole > 0.0 ==> Cents(p) && (v / whole) * 100.0 - 0.005 <= p <= (v / whole) * 100.0 + 0.005
  {
    if whole > 0.0 then Round2((v / whole) * 100.0) else 0.0
  }

  /**
   * The summary of a reply: the forecast total and the adjustment to two
   * decimals, and the growth of the forecast total over the previous total
   * and the adjustment as a share of it, as percentages to two decimals,
   * both 0 unless the previous total is positive.
   */
  function SummaryOf<E>(d: ForecastData<E>): (s: Summary)
    ensures s.previousMean == d.previousMean && s.previousSum == d.previousSum
    ensures s.forecastMean == d.forecastMean
    ensures Cents(s.forecastSum) && d.forecastSum - 0.005 <= s.forecastSum <= d.forecastSum + 0.005
    ensures Cents(s.recommendedAdjustment)
    ensures d.recommendedAdjustment - 0.005 <= s.recommendedAdjustment <= d.recommendedAdjustment + 0.005
    ensures d.previousSum <= 0.0 ==> s.percentChange == 0.0
    ensures d.previousSum > 0.0 ==>
              var growth := (d.forecastSum / d.previousSum - 1.0) * 100.0;
              Cents(s.percentChange) && growth - 0.005 <= s.percentChange <= growth + 0.005
    ensures s.adjustmentPercent == Share(d.recommendedAdjustment, d.previousSum)
  {
    var percent := if d.previousSum > 0.0 then Round2((d.forecastSum / d.previousSum - 1.0) * 100.0) else 0.0;
    Summary(d.previousMean, d.previousSum, d.forecastMean, Round2(d.forecastSum),
            Round2(d.recommendedAdjustment), percent, Share(d.recommendedAdjustment, d.previousSum))
  }

  /** The page's state. `values` is `None` while it is still the initial `{}`. */
  datatype State<E> = State(
    forecast: seq<E>, loading: bool, service: ModelApi.Service, horizon: int, region: int,
    values: Option<Summary>)

  /** The page as it mounts: compute, 7 days, region 0, nothing loaded yet. */
  function Initial<E>(): (s: State<E>)
    ensures s.forecast == [] && s.loading && s.values.None?
    ensures Offered(s)
  {
    State([], true, ModelApi.Compute, 7, 0, None)
  }

  /** The selector options: horizons of 7, 14 and 30 days, regions 0 to 3. */
  predicate Offered<E>(s: State<E>) {
    ModelRoutes.ValidHorizon(s.horizon) && 0 <= s.region <= 3
  }

  /** A choice made in one of the three selectors. */
  datatype Choice = PickService(service: ModelApi.Service) | PickHorizon(horizon: int) | PickRegion(region: int)

  predicate OfferedChoice(c: Choice) {
    match c
    case PickService(_) => true
    case PickHorizon(h) => ModelRoutes.ValidHorizon(h)
    case PickRegion(g) => 0 <= g <= 3
  }

  /** A selector change sets its own state and nothing else. */
  function Choose<E>(s: State<E>, c: Choice): (t: State<E>)
    ensures t.forecast == s.forecast && t.loading == s.loading && t.values == s.values
    ensures t.service == (if c.PickService? then c.service else s.service)
    ensures t.horizon == (if c.PickHorizon? then c.horizon else s.horizon)
    ensures t.region == (if c.PickRegion? then c.region else s.region)
    ensures Offered(s) && OfferedChoice(c) ==> Offered(t)
  {
    match c
    case PickService(v) => s.(service := v)
    case PickHorizon(h) => s.(horizon := h)
    case PickRegion(g) => s.(region := g)
  }

  /** The effect's dependency list: service, horizon and region. */
  predicate Refetches<E>(s: State<E>, t: State<E>) {
    s.service != t.service || s.horizon != t.horizon || s.region != t.region
  }

  /** A choice triggers a fetch exactly when it changes the selected value. */
  lemma ChoiceRefetches<E>(s: State<E>, c: Choice)
    ensures Refetches(s, Choose(s, c)) <==>
              match c
              case PickService(v) => v != s.service
              case PickHorizon(h) => h != s.horizon
              case PickRegion(g) => g != s.region
  {
  }

  /** The `model_endpoints` key the page picks for a service. */
  function EndpointKey(service: ModelApi.Service): string {
    match service
    case Compute => "forecast_cpu"
    case Storage => "forecast_storage"
    case Users => "forecast_users"
  }

  /**
   * `endpointFn(region, horizon)`: the page calls what the object holds under
   * the service's key, which is the service's builder, so the path asks for
   * the page's own service.
   */
  function Endpoint(service: ModelApi.Service, region: int, horizon: int): (p: string)
    ensures p == ModelApi.ForecastPath(service, region, Some(horizon))
  {
    ModelApi.BuildersOverride();
    var builder := ModelApi.Endpoints[EndpointKey(service)];
    ModelApi.Apply(builder, region, "", Some(horizon)).value
  }

  /**
   * One run of the effect: on a readable reply, the forecast list (empty
   * when absent) and the new summary; on a failed fetch or a reply whose
   * reading throws, an empty list and the old summary. Loading ends either
   * way.
   */
  function Load<J, E>(s: State<E>, net: Http.Network<J>, read: Reader<J, E>): (t: State<E>)
    ensures !t.loading
    ensures t.service == s.service && t.horizon == s.horizon && t.region == s.region
    ensures var r := ModelApi.Fetch(net, Endpoint(s.service, s.region, s.horizon));
            && (r.Ok? && read(r.value).Fields? ==>
                  t.forecast == read(r.value).value.forecasts.GetOr([])
                  && t.values == Some(SummaryOf(read(r.value).value)))
            && (r.Err? || read(r.value).Throws? ==> t.forecast == [] && t.values == s.values)
  {
    match ModelApi.Fetch(net, Endpoint(s.service, s.region, s.horizon))
    case Ok(j) =>
      (match read(j)
       case Fields(d) => s.(forecast := d.forecasts.GetOr([]), values := Some(SummaryOf(d)), loading := false)
       case Throws => s.(forecast := [], loading := false))
    case Err(_) => s.(forecast := [], loading := false)
  }

  /** The arguments the backend's `request.args` holds for a query the page sends. */
  function PageArgs(service: ModelApi.Service, region: int, horizon: int): seq<(string, string)> {
    Routes.QueryArgs(ModelApi.Query(region, service.Name(), Some(horizon)))
  }

  /**
   * Every request the page can make, forecast and download alike, passes the
   * backend's validation, which reads back the page's service, horizon and
   * region.
   */
  lemma PageQueryValid(service: ModelApi.Service, region: int, horizon: int)
    requires ModelRoutes.ValidHorizon(horizon)
    ensures var r := ModelRoutes.Validate(PageArgs(service, region, horizon));
            && r.Ok?
            && r.value.service == service.Name()
            && ModelRoutes.ServiceName(r.value.target) == service.Name()
            && r.value.horizon == horizon
            && r.value.region == Some(region)
  {
    var args := PageArgs(service, region, horizon);
    NameSafe(service);
    ModelApi.QueryDecodes(region, service.Name(), Some(horizon));
    assert Some(horizon).GetOr(30) == horizon;
    ArgIntOf(args, "horizon", horizon, Some(30));
    ArgIntOf(args, "region", region, None);
    ValidateOf(args, service, region, horizon);
  }

  /** A service name passes through a query string unchanged. */
  lemma NameSafe(service: ModelApi.Service)
    ensures Routes.QuerySafe(service.Name())
  {
    match service
    case Compute => assert forall c :: c in "compute" ==> 'a' <= c <= 'z';
    case Storage => assert forall c :: c in "storage" ==> 'a' <= c <= 'z';
    case Users => assert forall c :: c in "users" ==> 'a' <= c <= 'z';
  }

  /** Validation passes on the arguments the page's queries carry. */
  lemma ValidateOf(args: seq<(string, string)>, service: ModelApi.Service, region: int, horizon: int)
    requires Routes.ArgGet(args, "service") == Some(service.Name())
    requires ModelRoutes.ArgInt(args, "horizon", Some(30)) == Some(horizon)
    requires ModelRoutes.ArgInt(args, "region", None) == Some(region)
    requires ModelRoutes.ValidHorizon(horizon)
    ensures var r := ModelRoutes.Validate(args);
            && r.Ok?
            && r.value.service == service.Name()
            && ModelRoutes.ServiceName(r.value.target) == service.Name()
            && r.value.horizon == horizon
            && r.value.region == Some(region)
  {
    assert ModelRoutes.ServiceTarget(service.Name()).Some?;
  }

  /** A rendered number reads back as itself, whatever the default. */
  lemma ArgIntOf(args: seq<(string, string)>, key: string, n: int, default: Option<int>)
    requires Routes.ArgGet(args, key) == Some(IntToString(n))
    ensures ModelRoutes.ArgInt(args, key, default) == Some(n)
  {
    IntRoundTrip(n);
  }

  /** Whatever the page fetches reaches the backend's forecast view with an accepted query. */
  lemma LoadServed<E>(s: State<E>)
    requires Offered(s)
    ensures var url := Http.Url(Http.ApiBase, Endpoint(s.service, s.region, s.horizon));
            && Routes.Serves(url, Routes.Models(Routes.ForecastView), [])
            && Routes.QueryOf(url) == Some(ModelApi.Query(s.region, s.service.Name(), Some(s.horizon)))
            && ModelRoutes.Validate(PageArgs(s.service, s.region, s.horizon)).Ok?
  {
    ModelApi.ForecastServed(s.service, s.region, Some(s.horizon));
    PageQueryValid(s.service, s.region, s.horizon);
  }

  /** The DOWNLOAD button's address: the CSV for the page's region, service and horizon. */
  function DownloadUrl<E>(s: State<E>): (url: string)
    ensures Routes.Serves(url, Routes.Models(Routes.DownloadCsv), [])
    ensures Routes.QueryOf(url) == Some(ModelApi.Query(s.region, s.service.Name(), Some(s.horizon)))
  {
    ModelApi.DownloadServed(s.region, s.service.Name(), Some(s.horizon));
    Http.Url(Http.ApiBase, ModelApi.DownloadPath(s.region, s.service.Name(), Some(s.horizon)))
  }

  /** The download the page offers is always one the backend accepts. */
  lemma DownloadAccepted<E>(s: State<E>)
    requires Offered(s)
    ensures ModelRoutes.Validate(Routes.QueryArgs(Routes.QueryOf(DownloadUrl(s)).value)).Ok?
  {
    PageQueryValid(s.service, s.region, s.horizon);
  }

  /**
   * `adjustmentPercent` as the page recomputes it for the label: from the
   * summary's two-decimal adjustment, fixed to two decimals again, and 0
   * while there is no summary or the previous total is not positive.
   */
  function PageAdjustment(values: Option<Summary>): (p: real)
    ensures values.None? ==> p == 0.0
    ensures values.Some? ==> p == Share(values.value.recommendedAdjustment, values.value.previousSum)
  {
    if values.Some? && values.value.previousSum > 0.0 then
      Round2((values.value.recommendedAdjustment / values.value.previousSum) * 100.0)
    else 0.0
  }

  /** The label's colour and word. */
  datatype Label = Label(color: string, word: string)

  /** The risk label for an adjustment percentage. */
  function RiskLabel(p: real): (l: Label)
    ensures l.word == "Short" <==> p > 10.0
    ensures l.word == "Over-provisioned" <==> p < -10.0
    ensures l.word == "Sufficient" <==> -10.0 <= p <= 10.0
  {
    if p > 10.0 then Label("\U{1F534}", "Short")
    else if p < -10.0 then Label("\U{1F7E1}", "Over-provisioned")
    else Label("\U{1F7E2}", "Sufficient")
  }

  /** The page's label uses the CSV's bands: its word names the CSV's band for the same number. */
  lemma LabelBands(p: real)
    ensures RiskLabel(p).word == "Short" <==> ModelRoutes.CsvRisk(p) == ModelRoutes.Shortage
    ensures RiskLabel(p).word == "Over-provisioned" <==> ModelRoutes.CsvRisk(p) == ModelRoutes.OverProvision
    ensures RiskLabel(p).word == "Sufficient" <==> ModelRoutes.CsvRisk(p) == ModelRoutes.Sufficient
  {
    ModelRoutes.CsvRiskBands(p);
  }

  /** Until a reply arrives the page calls the resources sufficient. */
  lemma InitialSufficient<E>()
    ensures RiskLabel(PageAdjustment(Initial<E>().values)).word == "Sufficient"
  {
  }

  /** What the page reads out of the backend's JSON body. */
  function FromBody(b: ModelRoutes.ForecastBody): (d: ForecastData<ModelRoutes.ForecastEntry>)
    ensures d.forecasts == Some(b.forecasts)
    ensures d.previousSum == b.previousSum && d.forecastSum == b.forecastSum
    ensures d.recommendedAdjustment == b.recommendedAdjustment
  {
    ForecastData(Some(b.forecasts), b.previousMean, b.previousSum, b.forecastMean,
                 b.forecastSum, b.recommendedAdjustment)
  }

  /**
   * The page and the CSV can label the same forecast differently: the CSV
   * bands the adjustment percentage before rounding, the page a percentage
   * rebuilt from rounded figures. With one previous day of 100 and a
   * forecast total of 110.004, the CSV reports a shortage (10.004%) while the
   * page reads 10.00% as sufficient.
   */
  lemma PageAndCsvDisagree()
    ensures var req := ModelRoutes.Request(Some(0), "compute", Routes.UsageCpu, 7);
            var basis := ModelRoutes.Basis([ModelRoutes.ForecastEntry(Calendar.Date(2024, 1, 2), 110.004, 100.0, 120.0)],
                                           [ModelRoutes.DailyMean(Calendar.Date(2024, 1, 1), 100.0)]);
            var csv := ModelRoutes.CsvRows(basis.daily, basis.forecasts, req.horizon);
            && csv[|csv| - 1].risk == ModelRoutes.Shortage
            && RiskLabel(PageAdjustment(Some(SummaryOf(FromBody(ModelRoutes.Body(req, basis)))))).word == "Sufficient"
  {
    var req := ModelRoutes.Request(Some(0), "compute", Routes.UsageCpu, 7);
    var day := ModelRoutes.DailyMean(Calendar.Date(2024, 1, 1), 100.0);
    var entry := ModelRoutes.ForecastEntry(Calendar.Date(2024, 1, 2), 110.004, 100.0, 120.0);
    var basis := ModelRoutes.Basis([entry], [day]);
    ModelRoutes.FiguresOfSingle(day, entry, 7);
    Round2Exact(100.0);
    var history := ModelRoutes.Rounded([day]);
    assert history == [day];
    ModelRoutes.FiguresOfSingle(history[0], entry, 7);
    var csv := ModelRoutes.CsvRows(basis.daily, basis.forecasts, req.horizon);
    assert csv[|csv| - 1] == ModelRoutes.Summary(history, [entry], 7);
    var b := ModelRoutes.Body(req, basis);
    assert (110.004 * 100.0 + 0.5).Floor == 11000;
    assert (10.004 * 100.0 + 0.5).Floor == 1000;
    assert b.previousSum == 100.0 && b.recommendedAdjustment == 10.0;
    Round2Exact(10.0);
    var s := SummaryOf(FromBody(b));
    assert s.recommendedAdjustment == 10.0;
    assert PageAdjustment(Some(s)) == 10.0;
  }

  /** "activity" for users, "usage" for the other two services. */
  function Measure(service: ModelApi.Service): string {
    if service == ModelApi.Users then "activity" else "usage"
  }

  /** The insight panel's change caption: a change of exactly 0 reads as a decrease. */
  function ChangeCaption(service: ModelApi.Service, percentChange: real): (c: string)
    ensures percentChange > 0.0 ==> c == "Increased " + Measure(service)
    ensures percentChange <= 0.0 ==> c == "Decreased " + Measure(service)
  {
    (if percentChange > 0.0 then "Increased " else "Decreased ") + Measure(service)
  }

  /** The risk line and the recommended-adjustment card are shown for compute and storage only. */
  predicate ShowsRisk(service: ModelApi.Service) {
    service != ModelApi.Users
  }
}
