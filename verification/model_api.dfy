/**
 * The model service file: `fetchData` against `BASE_METRIC_URL` and the
 * `model_endpoints` object. The object literal names `forecast_cpu`,
 * `forecast_storage` and `forecast_users` twice, first as fixed paths and then
 * as builder functions; a JavaScript object literal keeps the last value given
 * for a key, so the builders are what the object holds.
 */
module ModelApi {
  import opened Wrappers
  import opened Text
  import Http
  import Routes

  /** The `service` query value a builder sends, and what the forecast page calls a resource. */
  datatype Service = Compute | Storage | Users {
    function Name(): string {
      match this
      case Compute => "compute"
      case Storage => "storage"
      case Users => "users"
    }
  }

  /** A value of the object: a fixed path, or one of the two kinds of builder function. */
  datatype Value = Fixed(path: string) | ForecastBuilder(service: Service) | DownloadBuilder

  /** The object literal's entries, in source order, duplicates included. */
  const Entries: seq<(string, Value)> := [
    ("march_cpu", Fixed("models/predict/march/cpu")),
    ("march_storage", Fixed("models/predict/march/storage")),
    ("march_users", Fixed("models/predict/march/users")),
    ("forecast_cpu", Fixed("models/forecast/cpu")),
    ("forecast_storage", Fixed("models/forecast/storage")),
    ("forecast_users", Fixed("models/forecast/users")),
    ("model_monitoring", Fixed("models/monitoring")),
    ("forecast_cpu", ForecastBuilder(Compute)),
    ("forecast_storage", ForecastBuilder(Storage)),
    ("forecast_users", ForecastBuilder(Users)),
    ("download_forecast", DownloadBuilder)
  ]

  /** The object an object literal with these entries evaluates to. */
  function ObjectOf<V>(entries: seq<(string, V)>): (m: map<string, V>)
    ensures forall k :: k in m <==> exists i :: 0 <= i < |entries| && entries[i].0 == k
    decreases |entries|
  {
    if |entries| == 0 then map[]
    else
      var init := entries[..|entries| - 1];
      var last := entries[|entries| - 1];
      var m := ObjectOf(init);
      assert forall i :: 0 <= i < |init| ==> init[i] == entries[i];
      m[last.0 := last.1]
  }

  /** A key holds the value of its last entry. */
  lemma {:induction false} LastWins<V>(entries: seq<(string, V)>, i: nat)
    requires i < |entries|
    requires forall j :: i < j < |entries| ==> entries[j].0 != entries[i].0
    ensures entries[i].0 in ObjectOf(entries) && ObjectOf(entries)[entries[i].0] == entries[i].1
    decreases |entries|
  {
    if i < |entries| - 1 {
      var init := entries[..|entries| - 1];
      assert init[i] == entries[i];
      LastWins(init, i);
    }
  }

  /** `model_endpoints`. */
  const Endpoints: map<string, Value> := ObjectOf(Entries)

  /** The three `forecast_*` keys end up holding the builders, not the fixed paths given first. */
  lemma BuildersOverride()
    ensures "forecast_cpu" in Endpoints && Endpoints["forecast_cpu"] == ForecastBuilder(Compute)
    ensures "forecast_storage" in Endpoints && Endpoints["forecast_storage"] == ForecastBuilder(Storage)
    ensures "forecast_users" in Endpoints && Endpoints["forecast_users"] == ForecastBuilder(Users)
  {
    LastWins(Entries, 7);
    LastWins(Entries, 8);
    LastWins(Entries, 9);
  }

  /** The default-30 horizon parameter of every builder, rendered as JavaScript renders a number. */
  function HorizonText(horizon: Option<int>): (s: string)
    ensures s == IntToString(horizon.GetOr(30))
    ensures horizon.None? ==> s == "30"
  {
    IntToString(horizon.GetOr(30))
  }

  /** `forecast_<x>(region, horizon)`: the forecast query for the builder's fixed service. */
  function ForecastPath(service: Service, region: int, horizon: Option<int>): string {
    "models/forecast?region=" + IntToString(region) + "&service=" + service.Name()
      + "&horizon=" + HorizonText(horizon)
  }

  /** `download_forecast(region, service, horizon)`: the caller's service is inserted verbatim. */
  function DownloadPath(region: int, service: string, horizon: Option<int>): string {
    "models/forecast/download?region=" + IntToString(region) + "&service=" + service
      + "&horizon=" + HorizonText(horizon)
  }

  /** Calling a builder value; a fixed path takes no arguments. */
  function Apply(v: Value, region: int, service: string, horizon: Option<int>): (r: Option<string>)
    ensures r.None? <==> v.Fixed?
    ensures v.ForecastBuilder? ==> r == Some(ForecastPath(v.service, region, horizon))
    ensures v.DownloadBuilder? ==> r == Some(DownloadPath(region, service, horizon))
  {
    match v
    case Fixed(_) => None
    case ForecastBuilder(s) => Some(ForecastPath(s, region, horizon))
    case DownloadBuilder => Some(DownloadPath(region, service, horizon))
  }

  /** `fetchData(endpoint)` of the model service file. */
  function Fetch<J>(net: Http.Network<J>, endpoint: string): Result<J, Http.FetchError> {
    Http.FetchData(net, Http.ApiBase, endpoint)
  }

  /** A rendered number carries no query-string separator. */
  lemma NumberQuerySafe(n: int)
    ensures Routes.QuerySafe(IntToString(n)) && '/' !in IntToString(n)
  {
    var s := IntToString(n);
    if n < 0 {
      assert s == "-" + NatToString(-n);
      assert forall i :: 1 <= i < |s| ==> IsDigit(s[i]);
    }
  }

  /** The query string every builder produces: region, service and horizon, in that order. */
  function Query(region: int, service: string, horizon: Option<int>): string {
    "region=" + IntToString(region) + "&service=" + service + "&horizon=" + HorizonText(horizon)
  }

  /** The backend's `request.args` reads back the three values a builder put in the query. */
  lemma QueryDecodes(region: int, service: string, horizon: Option<int>)
    requires Routes.QuerySafe(service)
    ensures var args := Routes.QueryArgs(Query(region, service, horizon));
            Routes.ArgGet(args, "region") == Some(IntToString(region))
            && Routes.ArgGet(args, "service") == Some(service)
            && Routes.ArgGet(args, "horizon") == Some(IntToString(horizon.GetOr(30)))
  {
    var r, h := IntToString(region), HorizonText(horizon);
    NumberQuerySafe(region);
    NumberQuerySafe(horizon.GetOr(30));
    QueryShape(r, service, h);
    QueryKeys();
    Routes.QueryArgs3("region", r, "service", service, "horizon", h);
    Routes.ArgGet3("region", r, "service", service, "horizon", h);
  }

  /** The three query keys are distinct, non-empty and carried unchanged. */
  lemma QueryKeys()
    ensures |"region"| > 0 && |"service"| > 0 && |"horizon"| > 0
    ensures Routes.QuerySafe("region") && Routes.QuerySafe("service") && Routes.QuerySafe("horizon")
    ensures "region" != "service" && "region" != "horizon" && "service" != "horizon"
  {
    assert "region"[0] != "service"[0] && "region"[0] != "horizon"[0] && "service"[0] != "horizon"[0];
    assert forall c :: c in "region" ==> 'a' <= c <= 'z';
    Routes.LowerSafe("region");
    assert forall c :: c in "service" ==> 'a' <= c <= 'z';
    Routes.LowerSafe("service");
    assert forall c :: c in "horizon" ==> 'a' <= c <= 'z';
    Routes.LowerSafe("horizon");
  }

  lemma QueryShape(r: string, s: string, h: string)
    ensures "region=" + r + "&service=" + s + "&horizon=" + h
            == "region" + "=" + r + "&" + "service" + "=" + s + "&" + "horizon" + "=" + h
  {
  }

  /**
   * Every `forecast_<x>` URL reaches the backend's `forecast` view; its query
   * is the one `QueryDecodes` reads back.
   */
  lemma ForecastServed(service: Service, region: int, horizon: Option<int>)
    ensures Routes.Serves(Http.Url(Http.ApiBase, ForecastPath(service, region, horizon)), Routes.Models(Routes.ForecastView), [])
    ensures Routes.QueryOf(Http.Url(Http.ApiBase, ForecastPath(service, region, horizon))) == Some(Query(region, service.Name(), horizon))
  {
    var segs := ["models", "forecast"];
    ForecastPathJoin(service, region, horizon);
    Routes.ApiUrlParts(segs, Query(region, service.Name(), horizon));
    ForecastBinds();
    Routes.ServesVia(Http.Url(Http.ApiBase, ForecastPath(service, region, horizon)), ["", "api"] + segs,
                     Routes.Models(Routes.ForecastView), []);
  }

  lemma ForecastPathJoin(service: Service, region: int, horizon: Option<int>)
    ensures ForecastPath(service, region, horizon)
            == Join(["models", "forecast"], '/') + "?" + Query(region, service.Name(), horizon)
  {
    ForecastSegs();
    PathShape("models/forecast", IntToString(region), service.Name(), HorizonText(horizon));
  }

  lemma ForecastBinds()
    ensures Routes.Binds(["", "api", "models", "forecast"], Routes.FullRule(Routes.Models(Routes.ForecastView)), [])
  {
  }

  /**
   * Every `download_forecast` URL reaches the backend's CSV view; its query
   * carries exactly the service the caller passed.
   */
  lemma DownloadServed(region: int, service: string, horizon: Option<int>)
    ensures Routes.Serves(Http.Url(Http.ApiBase, DownloadPath(region, service, horizon)), Routes.Models(Routes.DownloadCsv), [])
    ensures Routes.QueryOf(Http.Url(Http.ApiBase, DownloadPath(region, service, horizon))) == Some(Query(region, service, horizon))
  {
    var segs := ["models", "forecast", "download"];
    DownloadPathJoin(region, service, horizon);
    Routes.ApiUrlParts(segs, Query(region, service, horizon));
    DownloadBinds();
    Routes.ServesVia(Http.Url(Http.ApiBase, DownloadPath(region, service, horizon)), ["", "api"] + segs,
                     Routes.Models(Routes.DownloadCsv), []);
  }

  lemma DownloadPathJoin(region: int, service: string, horizon: Option<int>)
    ensures DownloadPath(region, service, horizon)
            == Join(["models", "forecast", "download"], '/') + "?" + Query(region, service, horizon)
  {
    DownloadSegs();
    PathShape("models/forecast/download", IntToString(region), service, HorizonText(horizon));
  }

  lemma DownloadBinds()
    ensures Routes.Binds(["", "api", "models", "forecast", "download"], Routes.FullRule(Routes.Models(Routes.DownloadCsv)), [])
  {
  }

  lemma ForecastSegs()
    ensures Join(["models", "forecast"], '/') == "models/forecast"
  {
    Join2("models", "forecast", '/');
  }

  lemma DownloadSegs()
    ensures Join(["models", "forecast", "download"], '/') == "models/forecast/download"
  {
    Join3("models", "forecast", "download", '/');
  }

  lemma PathShape(p: string, r: string, s: string, h: string)
    ensures p + "?region=" + r + "&service=" + s + "&horizon=" + h
            == p + "?" + ("region=" + r + "&service=" + s + "&horizon=" + h)
  {
  }
}
