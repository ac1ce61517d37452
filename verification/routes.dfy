/**
 * The backend's URL routing: the three blueprints the frontend talks to, each
 * mounted under its prefix, and Flask's matching of a request path against a
 * rule. A rule segment is a literal, a default (`string`) converter, which
 * takes any non-empty segment, or an `int` converter, which takes a non-empty
 * run of decimal digits. A converter hands the segment it took to the view
 * function as one keyword argument; `slot` is that argument's position in the
 * view function's parameter list.
 */
module Routes {
  import opened Wrappers
  import opened Text
  import Http

  datatype Seg = Lit(text: string) | StrParam(slot: nat) | IntParam(slot: nat)

  /** The three resources the rolling, insights, predict and forecast rules are written for. */
  datatype Resource = Cpu | Storage | Users {
    function Name(): string {
      match this
      case Cpu => "cpu"
      case Storage => "storage"
      case Users => "users"
    }
  }

  /** The per-date and per-range reports that share the `.../<kind>` rule shape. */
  datatype Report = CpuReport | StorageReport | UsersReport | EconomyReport | SummaryReport {
    function Name(): string {
      match this
      case CpuReport => "cpu"
      case StorageReport => "storage"
      case UsersReport => "users"
      case EconomyReport => "economy"
      case SummaryReport => "summary"
    }
  }

  /** The forecast targets: the score tables' `Target` column and the model-metrics rules' `<target>`. */
  datatype Target = UsageCpu | UsageStorage | UsersActive {
    function Name(): string {
      match this
      case UsageCpu => "usage_cpu"
      case UsageStorage => "usage_storage"
      case UsersActive => "users_active"
    }
  }

  /**
   * The view functions of the features blueprint. Views that differ only in the
   * last literal of their rule (`cpu_by_date`, `storage_by_date`, ...) share a
   * constructor that carries that literal's kind.
   */
  datatype FeatureView =
    | AllDates | AllMonths | MonthDates
    | ByDate(report: Report) | ByRange(report: Report) | HolidaysByRange
    | WithRolling(resource: Resource) | RangeInsights(resource: Resource)

  /** The view functions of the models blueprint. */
  datatype ModelView = PredictMarch(resource: Resource) | ForecastOf(resource: Resource) | ForecastView | DownloadCsv

  /** The view functions of the model-metrics blueprint. */
  datatype MetricsView = AllTop | AllComparison | BestModel | AllModels | Top3Models

  /** A view function, tagged with the blueprint it is registered on. */
  datatype Handler = Features(fv: FeatureView) | Models(mv: ModelView) | ModelMetrics(tv: MetricsView)

  /** The URL prefix each blueprint is registered under. */
  function Prefix(h: Handler): seq<string> {
    match h
    case Features(_) => ["api", "features"]
    case Models(_) => ["api", "models"]
    case ModelMetrics(_) => ["api", "model_metrics"]
  }

  /** The rule each view is registered with, relative to its blueprint prefix. */
  function Rule(h: Handler): seq<Seg> {
    match h
    case Features(AllDates) => [Lit("dates")]
    case Features(AllMonths) => [Lit("months")]
    case Features(MonthDates) => [Lit("dates"), StrParam(0)]
    case Features(ByDate(k)) => [StrParam(0), Lit(k.Name())]
    case Features(ByRange(k)) => [Lit("range"), StrParam(0), StrParam(1), Lit(k.Name())]
    case Features(HolidaysByRange) => [Lit("range"), StrParam(0), StrParam(1), Lit("holidays")]
    case Features(WithRolling(r)) => [Lit(r.Name()), Lit("rolling"), IntParam(0)]
    case Features(RangeInsights(r)) => [Lit("range"), StrParam(0), StrParam(1), Lit("insights"), Lit(r.Name())]
    case Models(PredictMarch(r)) => [Lit("predict"), Lit("march"), Lit(r.Name())]
    case Models(ForecastOf(r)) => [Lit("forecast"), Lit(r.Name())]
    case Models(ForecastView) => [Lit("forecast")]
    case Models(DownloadCsv) => [Lit("forecast"), Lit("download")]
    case ModelMetrics(AllTop) => [Lit("all"), Lit("top")]
    case ModelMetrics(AllComparison) => [Lit("all"), Lit("comparison")]
    case ModelMetrics(BestModel) => [StrParam(0)]
    case ModelMetrics(AllModels) => [StrParam(0), Lit("all")]
    case ModelMetrics(Top3Models) => [StrParam(0), Lit("top3")]
  }

  /** The full rule: the empty segment before the path's leading '/', the prefix, the rule. */
  function FullRule(h: Handler): seq<Seg> {
    [Lit(""), Lit(Prefix(h)[0]), Lit(Prefix(h)[1])] + Rule(h)
  }

  /** The number of keyword arguments the view function takes. */
  function Arity(h: Handler): nat {
    match h
    case Features(MonthDates) | Features(ByDate(_)) | Features(WithRolling(_)) => 1
    case Features(ByRange(_)) | Features(HolidaysByRange) | Features(RangeInsights(_)) => 2
    case ModelMetrics(BestModel) | ModelMetrics(AllModels) | ModelMetrics(Top3Models) => 1
    case _ => 0
  }

  /** `part` matches `seg`, and a converter hands it to the view as `args[slot]`. */
  predicate SegBinds(part: string, seg: Seg, args: seq<string>) {
    match seg
    case Lit(t) => part == t
    case StrParam(j) => |part| > 0 && j < |args| && args[j] == part
    case IntParam(j) => |part| > 0 && AllDigits(part) && j < |args| && args[j] == part
  }

  /** The path segments match the rule segment by segment, binding the view's arguments. */
  predicate Binds(parts: seq<string>, rule: seq<Seg>, args: seq<string>) {
    |parts| == |rule| && forall i :: 0 <= i < |parts| ==> SegBinds(parts[i], rule[i], args)
  }

  /** The path of a URL on the backend's host, cut at the query string, split on '/'. */
  function PathParts(url: string): Option<seq<string>> {
    if StartsWith(url, Http.Host) then Some(Split(Split(url[|Http.Host|..], '?')[0], '/'))
    else None
  }

  /** The query string of a URL: everything after its first '?', if any. */
  function QueryOf(url: string): Option<string>
    decreases |url|
  {
    if |url| == 0 then None
    else if url[0] == '?' then Some(url[1..])
    else QueryOf(url[1..])
  }

  /**
   * The rule of `h` matches the path of `url` and binds the view's keyword
   * arguments to `args`. (When several rules match, `Dispatches` says which
   * one Flask picks.)
   */
  predicate Serves(url: string, h: Handler, args: seq<string>) {
    && PathParts(url).Some?
    && |args| == Arity(h)
    && Binds(PathParts(url).value, FullRule(h), args)
  }

  /**
   * Werkzeug's preference between two rules of the same length: at the first
   * position where one rule has a literal and the other a converter, the
   * literal wins.
   */
  predicate Outranks(a: seq<Seg>, b: seq<Seg>) {
    exists i :: 0 <= i < |a| && i < |b| && a[i].Lit? && !b[i].Lit?
                && forall j :: 0 <= j < i ==> a[j].Lit? == b[j].Lit?
  }

  /**
   * Flask dispatches `url` to `h` with `args`: that rule serves the URL, and
   * every other rule that also matches is one Werkzeug ranks below it.
   */
  ghost predicate Dispatches(url: string, h: Handler, args: seq<string>) {
    && Serves(url, h, args)
    && forall h', args' :: Serves(url, h', args') ==> (h' == h && args' == args) || Outranks(FullRule(h), FullRule(h'))
  }

  /** A path segment a default converter accepts and a URL carries unaltered. */
  predicate ValidSegment(s: string) {
    |s| > 0 && '/' !in s && '?' !in s
  }

  /** The URL of `/`-joined segments on the backend's host splits back into those segments. */
  lemma PathPartsOfJoin(parts: seq<string>)
    requires |parts| >= 1
    requires forall i :: 0 <= i < |parts| ==> '/' !in parts[i] && '?' !in parts[i]
    ensures PathParts(Http.Host + Join(parts, '/')) == Some(parts)
  {
    var url := Http.Host + Join(parts, '/');
    assert url[|Http.Host|..] == Join(parts, '/');
    JoinExcludes(parts, '/', '?');
    SplitNoSep(Join(parts, '/'), '?');
    SplitJoin(parts, '/');
  }

  /** The same, with a query string after the path: the query does not reach the path segments. */
  lemma PathPartsWithQuery(parts: seq<string>, q: string)
    requires |parts| >= 1
    requires forall i :: 0 <= i < |parts| ==> '/' !in parts[i] && '?' !in parts[i]
    ensures PathParts(Http.Host + Join(parts, '/') + "?" + q) == Some(parts)
    ensures QueryOf(Http.Host + Join(parts, '/') + "?" + q) == Some(q)
  {
    var path := Join(parts, '/');
    var url := Http.Host + path + "?" + q;
    assert url[|Http.Host|..] == path + ['?'] + q;
    JoinExcludes(parts, '/', '?');
    SplitCons(path, '?', q);
    SplitJoin(parts, '/');
    assert Http.Host + path + "?" + q == (Http.Host + path) + "?" + q;
    assert '?' !in Http.Host + path;
    QueryAfter(Http.Host + path, q);
  }

  /** A query URL under the `/api` base splits into the base's segments, the endpoint's segments and the query. */
  lemma ApiUrlParts(segs: seq<string>, q: string)
    requires |segs| >= 1
    requires forall i :: 0 <= i < |segs| ==> '/' !in segs[i] && '?' !in segs[i]
    ensures PathParts(Http.Url(Http.ApiBase, Join(segs, '/') + "?" + q)) == Some(["", "api"] + segs)
    ensures QueryOf(Http.Url(Http.ApiBase, Join(segs, '/') + "?" + q)) == Some(q)
  {
    var parts := ["", "api"] + segs;
    ApiJoin(segs, q);
    CleanParts(segs);
    PathPartsWithQuery(parts, q);
  }

  /** The same for an endpoint without a query string. */
  lemma ApiPathParts(segs: seq<string>)
    requires |segs| >= 1
    requires forall i :: 0 <= i < |segs| ==> '/' !in segs[i] && '?' !in segs[i]
    ensures PathParts(Http.Url(Http.ApiBase, Join(segs, '/'))) == Some(["", "api"] + segs)
  {
    ApiPrefix(segs);
    ApiUrlPlain(Join(segs, '/'));
    CleanParts(segs);
    PathPartsOfJoin(["", "api"] + segs);
  }

  lemma ApiJoin(segs: seq<string>, q: string)
    requires |segs| >= 1
    ensures Http.Url(Http.ApiBase, Join(segs, '/') + "?" + q) == Http.Host + Join(["", "api"] + segs, '/') + "?" + q
  {
    ApiPrefix(segs);
    ApiUrl(Join(segs, '/'), q);
  }

  lemma ApiUrlPlain(j: string)
    ensures Http.Url(Http.ApiBase, j) == Http.Host + ("/api" + "/" + j)
  {
  }

  lemma ApiUrl(j: string, q: string)
    ensures Http.Url(Http.ApiBase, j + "?" + q) == Http.Host + ("/api" + "/" + j) + "?" + q
  {
  }

  lemma ApiPrefix(segs: seq<string>)
    requires |segs| >= 1
    ensures Join(["", "api"] + segs, '/') == "/api" + "/" + Join(segs, '/')
  {
    ApiHead();
    JoinAppend(["", "api"], segs, '/');
    assert ['/'] == "/";
  }

  lemma ApiHead()
    ensures Join(["", "api"], '/') == "/api"
  {
    assert ["", "api"][1..] == ["api"];
    assert ['/'] + "api" == "/api";
  }

  lemma CleanParts(segs: seq<string>)
    requires forall i :: 0 <= i < |segs| ==> '/' !in segs[i] && '?' !in segs[i]
    ensures forall i :: 0 <= i < |["", "api"] + segs| ==> '/' !in (["", "api"] + segs)[i] && '?' !in (["", "api"] + segs)[i]
  {
    var parts := ["", "api"] + segs;
    forall i | 0 <= i < |parts| ensures '/' !in parts[i] && '?' !in parts[i] {
      if i >= 2 {
        assert parts[i] == segs[i - 2];
      }
    }
  }

  /** `Serves`, from the split path and the binding established separately. */
  lemma ServesVia(url: string, parts: seq<string>, h: Handler, args: seq<string>)
    requires PathParts(url) == Some(parts)
    requires |args| == Arity(h) && Binds(parts, FullRule(h), args)
    ensures Serves(url, h, args)
  {
  }

  /** `QueryOf` finds the query string after the first '?'. */
  lemma {:induction false} QueryAfter(a: string, q: string)
    requires '?' !in a
    ensures QueryOf(a + "?" + q) == Some(q)
    decreases |a|
  {
    if |a| > 0 {
      assert (a + "?" + q)[1..] == a[1..] + "?" + q;
      QueryAfter(a[1..], q);
    } else {
      assert (a + "?" + q)[1..] == q;
    }
  }

  /** A `key=value` pair cut at its first '='; a pair without '=' has an empty value. */
  function SplitPair(pair: string): (kv: (string, string))
    ensures '=' !in kv.0
    ensures '=' in pair ==> pair == kv.0 + "=" + kv.1
    ensures '=' !in pair ==> kv == (pair, "")
    decreases |pair|
  {
    if |pair| == 0 then ("", "")
    else if pair[0] == '=' then ("", pair[1..])
    else
      var kv := SplitPair(pair[1..]);
      assert '=' in pair ==> '=' in pair[1..];
      assert pair == [pair[0]] + pair[1..];
      ([pair[0]] + kv.0, kv.1)
  }

  /**
   * The decoded query arguments, in order: the query cut at every '&', empty
   * pieces skipped, each piece cut at its first '='. (Percent-escapes and '+'
   * are not decoded here.)
   */
  function QueryArgs(q: string): seq<(string, string)> {
    PairsOf(Split(q, '&'))
  }

  function PairsOf(pieces: seq<string>): (args: seq<(string, string)>)
    ensures |args| <= |pieces|
    decreases |pieces|
  {
    if |pieces| == 0 then []
    else if pieces[0] == "" then PairsOf(pieces[1..])
    else [SplitPair(pieces[0])] + PairsOf(pieces[1..])
  }

  /** `request.args.get(key)`: the first value given for `key`. */
  function ArgGet(args: seq<(string, string)>, key: string): (r: Option<string>)
    ensures r.Some? <==> exists i :: 0 <= i < |args| && args[i].0 == key
    ensures r.Some? ==> exists i :: 0 <= i < |args| && args[i] == (key, r.value)
                          && forall j :: 0 <= j < i ==> args[j].0 != key
    decreases |args|
  {
    if |args| == 0 then None
    else if args[0].0 == key then Some(args[0].1)
    else
      var r := ArgGet(args[1..], key);
      if r.Some? then
        var i :| 0 <= i < |args[1..]| && args[1..][i] == (key, r.value)
                 && forall j :: 0 <= j < i ==> args[1..][j].0 != key;
        assert args[i + 1] == (key, r.value);
        r
      else r
  }

  /** Looking up each of three distinct keys. */
  lemma ArgGet3(k1: string, v1: string, k2: string, v2: string, k3: string, v3: string)
    requires k1 != k2 && k1 != k3 && k2 != k3
    ensures ArgGet([(k1, v1), (k2, v2), (k3, v3)], k1) == Some(v1)
    ensures ArgGet([(k1, v1), (k2, v2), (k3, v3)], k2) == Some(v2)
    ensures ArgGet([(k1, v1), (k2, v2), (k3, v3)], k3) == Some(v3)
  {
    var args := [(k1, v1), (k2, v2), (k3, v3)];
    assert args[1..] == [(k2, v2), (k3, v3)];
    assert args[1..][1..] == [(k3, v3)];
    assert ArgGet([(k3, v3)], k3) == Some(v3);
    assert ArgGet([(k2, v2), (k3, v3)], k3) == Some(v3);
  }

  /** A value a query carries through unchanged: no separator, escape or fragment character. */
  predicate QuerySafe(v: string) {
    '&' !in v && '=' !in v && '%' !in v && '+' !in v && '#' !in v
  }

  /** A lower-case word is carried unchanged. */
  lemma LowerSafe(v: string)
    requires forall c :: c in v ==> 'a' <= c <= 'z'
    ensures QuerySafe(v)
  {
  }

  /** A query of three `key=value` pairs parses back into them. */
  lemma QueryArgs3(k1: string, v1: string, k2: string, v2: string, k3: string, v3: string)
    requires |k1| > 0 && |k2| > 0 && |k3| > 0
    requires QuerySafe(k1) && QuerySafe(v1) && QuerySafe(k2) && QuerySafe(v2) && QuerySafe(k3) && QuerySafe(v3)
    ensures QueryArgs(k1 + "=" + v1 + "&" + k2 + "=" + v2 + "&" + k3 + "=" + v3)
            == [(k1, v1), (k2, v2), (k3, v3)]
  {
    var p1, p2, p3 := k1 + "=" + v1, k2 + "=" + v2, k3 + "=" + v3;
    assert k1 + "=" + v1 + "&" + k2 + "=" + v2 + "&" + k3 + "=" + v3 == p1 + "&" + p2 + "&" + p3;
    Split3(p1, p2, p3);
    PairOf(k1, v1);
    PairOf(k2, v2);
    PairOf(k3, v3);
    Pairs3(p1, p2, p3);
  }

  lemma Split3(p1: string, p2: string, p3: string)
    requires '&' !in p1 && '&' !in p2 && '&' !in p3
    ensures Split(p1 + "&" + p2 + "&" + p3, '&') == [p1, p2, p3]
  {
    assert p1 + "&" + p2 + "&" + p3 == p1 + ['&'] + (p2 + ['&'] + p3);
    SplitCons(p1, '&', p2 + ['&'] + p3);
    SplitCons(p2, '&', p3);
    SplitNoSep(p3, '&');
  }

  lemma Pairs3(p1: string, p2: string, p3: string)
    requires p1 != "" && p2 != "" && p3 != ""
    ensures PairsOf([p1, p2, p3]) == [SplitPair(p1), SplitPair(p2), SplitPair(p3)]
  {
    assert [p3][1..] == [];
    assert PairsOf([p3]) == [SplitPair(p3)];
    assert [p2, p3][1..] == [p3];
    assert PairsOf([p2, p3]) == [SplitPair(p2), SplitPair(p3)];
    assert [p1, p2, p3][1..] == [p2, p3];
  }

  /** A piece `k=v` with '=' absent from `k` splits back into `(k, v)`. */
  lemma {:induction false} PairOf(k: string, v: string)
    requires '=' !in k
    ensures SplitPair(k + "=" + v) == (k, v)
    ensures k + "=" + v != ""
    decreases |k|
  {
    var p := k + "=" + v;
    assert |p| > 0;
    if |k| == 0 {
      assert p[0] == '=' && p[1..] == v;
    } else {
      assert p[0] == k[0] && p[1..] == k[1..] + "=" + v;
      PairOf(k[1..], v);
      assert k == [k[0]] + k[1..];
    }
  }
}
