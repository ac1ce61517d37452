/**
 * The model-metrics service file: `fetchData` against `BASE_METRIC_URL` and
 * the `model_metrics_endpoints` catalogue, ten fixed paths into the
 * model-metrics blueprint.
 */
module MetricsApi {
  import opened Wrappers
  import opened Text
  import Http
  import opened Routes

  /** What a catalogue path asks for: the whole summary table, or one target's best model, comparison rows or top three. */
  datatype Entry = AllTopEntry | BestOf(target: Target) | AllOf(target: Target) | Top3Of(target: Target)

  /** The catalogue, key by key, in source order. */
  const Catalogue: seq<(string, Entry)> := [
    ("all", AllTopEntry),
    ("cpu", BestOf(UsageCpu)),
    ("cpu_all", AllOf(UsageCpu)),
    ("cpu_top3", Top3Of(UsageCpu)),
    ("storage", BestOf(UsageStorage)),
    ("storage_all", AllOf(UsageStorage)),
    ("storage_top3", Top3Of(UsageStorage)),
    ("users", BestOf(UsersActive)),
    ("users_all", AllOf(UsersActive)),
    ("users_top3", Top3Of(UsersActive))
  ]

  /** The '/'-separated pieces of an entry's path. */
  function Segments(e: Entry): (segs: seq<string>)
    ensures |segs| >= 2 && segs[0] == "model_metrics"
  {
    match e
    case AllTopEntry => ["model_metrics", "all", "top"]
    case BestOf(t) => ["model_metrics", t.Name()]
    case AllOf(t) => ["model_metrics", t.Name(), "all"]
    case Top3Of(t) => ["model_metrics", t.Name(), "top3"]
  }

  /** The path string the catalogue holds for an entry. */
  function Path(e: Entry): string {
    match e
    case AllTopEntry => "model_metrics/all/top"
    case BestOf(t) => "model_metrics/" + t.Name()
    case AllOf(t) => "model_metrics/" + t.Name() + "/all"
    case Top3Of(t) => "model_metrics/" + t.Name() + "/top3"
  }

  function HandlerOf(e: Entry): Handler {
    ModelMetrics(
      match e
      case AllTopEntry => AllTop
      case BestOf(_) => BestModel
      case AllOf(_) => AllModels
      case Top3Of(_) => Top3Models)
  }

  function ArgsOf(e: Entry): seq<string> {
    if e.AllTopEntry? then [] else [e.target.Name()]
  }

  /** `fetchData(endpoint)` of the model-metrics service file. */
  function Fetch<J>(net: Http.Network<J>, e: Entry): Result<J, Http.FetchError> {
    Http.FetchData(net, Http.ApiBase, Path(e))
  }

  /** Every path is its segments joined with '/', so every one starts with `model_metrics/`. */
  lemma PathIsJoin(e: Entry)
    ensures Path(e) == Join(Segments(e), '/')
    ensures StartsWith(Path(e), "model_metrics/")
  {
    match e
    case AllTopEntry => JoinAllTop();
    case BestOf(t) => JoinBest(t.Name());
    case AllOf(t) => JoinTail(t.Name(), "all");
    case Top3Of(t) => JoinTail(t.Name(), "top3");
  }

  lemma JoinAllTop()
    ensures Join(["model_metrics", "all", "top"], '/') == "model_metrics/all/top"
  {
    Join3("model_metrics", "all", "top", '/');
  }

  lemma JoinBest(t: string)
    ensures Join(["model_metrics", t], '/') == "model_metrics/" + t
  {
    Join2("model_metrics", t, '/');
  }

  lemma JoinTail(t: string, tail: string)
    ensures Join(["model_metrics", t, tail], '/') == "model_metrics/" + t + "/" + tail
  {
    Join3("model_metrics", t, tail, '/');
  }

  /** Every target has its best-model, all-models and top-three entries, and `all` is the whole summary table. */
  lemma CatalogueComplete(t: Target)
    ensures exists i :: 0 <= i < |Catalogue| && Catalogue[i].1 == BestOf(t)
    ensures exists i :: 0 <= i < |Catalogue| && Catalogue[i].1 == AllOf(t)
    ensures exists i :: 0 <= i < |Catalogue| && Catalogue[i].1 == Top3Of(t)
    ensures Catalogue[0] == ("all", AllTopEntry) && Path(AllTopEntry) == "model_metrics/all/top"
  {
    var k := match t case UsageCpu => 1 case UsageStorage => 4 case UsersActive => 7;
    assert Catalogue[k].1 == BestOf(t);
    assert Catalogue[k + 1].1 == AllOf(t);
    assert Catalogue[k + 2].1 == Top3Of(t);
  }

  lemma SegmentsClean(e: Entry)
    ensures forall i :: 0 <= i < |Segments(e)| ==> '/' !in Segments(e)[i] && '?' !in Segments(e)[i]
  {
  }

  /** The rule of the entry's view matches its path and receives the entry's target. */
  lemma BindsArgs(e: Entry)
    ensures |ArgsOf(e)| == Arity(HandlerOf(e))
    ensures Binds(["", "api"] + Segments(e), FullRule(HandlerOf(e)), ArgsOf(e))
  {
  }

  /** Every catalogue path is answered by the view meant for it. */
  lemma EntryServed(e: Entry)
    ensures Serves(Http.Url(Http.ApiBase, Path(e)), HandlerOf(e), ArgsOf(e))
  {
    PathIsJoin(e);
    SegmentsClean(e);
    ApiPathParts(Segments(e));
    BindsArgs(e);
    ServesVia(Http.Url(Http.ApiBase, Path(e)), ["", "api"] + Segments(e), HandlerOf(e), ArgsOf(e));
  }

  /**
   * No other view of the blueprint answers a catalogue path, and the one that
   * does receives nothing but the entry's target.
   */
  lemma EntryServedOnly(e: Entry, v: MetricsView, args: seq<string>)
    requires Serves(Http.Url(Http.ApiBase, Path(e)), ModelMetrics(v), args)
    ensures ModelMetrics(v) == HandlerOf(e) && args == ArgsOf(e)
  {
    PathIsJoin(e);
    SegmentsClean(e);
    ApiPathParts(Segments(e));
    var parts := ["", "api"] + Segments(e);
    assert Binds(parts, FullRule(ModelMetrics(v)), args);
    OnlyView(e, v, args);
  }

  lemma OnlyView(e: Entry, v: MetricsView, args: seq<string>)
    requires |args| == Arity(ModelMetrics(v))
    requires Binds(["", "api"] + Segments(e), FullRule(ModelMetrics(v)), args)
    ensures ModelMetrics(v) == HandlerOf(e) && args == ArgsOf(e)
  {
    var parts := ["", "api"] + Segments(e);
    var rule := FullRule(ModelMetrics(v));
    assert SegBinds(parts[3], rule[3], args);
    if |parts| == 5 {
      assert SegBinds(parts[4], rule[4], args);
    }
  }
}
