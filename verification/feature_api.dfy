/**
 * The feature service file: `fetchData` against the features base URL and the
 * `feature_endpoints` catalogue of path builders. Each catalogue entry is a
 * constructor of `Endpoint`; `Path` is what the entry's builder returns.
 */
module FeatureApi {
  import opened Wrappers
  import opened Text
  import Http
  import opened Routes

  datatype Endpoint =
    | Dates                                            // dates
    | Months                                           // months
    | DatesInMonth(month: string)                      // datesInMonth(month)
    | OnDate(date: string, report: Report)             // cpu(date) ... summary(date)
    | OverRange(date: string, days: int, report: Report)  // cpuRange(date, days) ... summaryRange
    | HolidaysOverRange(date: string, days: int)       // holidaysRange(date, days)
    | Insights(date: string, days: int, resource: Resource) // cpuInsights ... usersInsights
    | Rolling(resource: Resource, window: int)         // cpuRoll(window) ... usersRoll

  /** The '/'-separated pieces of the path the entry's builder produces. */
  function Segments(e: Endpoint): seq<string> {
    match e
    case Dates => ["dates"]
    case Months => ["months"]
    case DatesInMonth(m) => ["dates", m]
    case OnDate(d, k) => [d, k.Name()]
    case OverRange(d, n, k) => ["range", d, IntToString(n), k.Name()]
    case HolidaysOverRange(d, n) => ["range", d, IntToString(n), "holidays"]
    case Insights(d, n, r) => ["range", d, IntToString(n), "insights", r.Name()]
    case Rolling(r, w) => [r.Name(), "rolling", IntToString(w)]
  }

  /** The endpoint string the catalogue entry builds. */
  function Path(e: Endpoint): string {
    match e
    case Dates => "dates"
    case Months => "months"
    case DatesInMonth(m) => "dates/" + m
    case OnDate(d, k) => d + "/" + k.Name()
    case OverRange(d, n, k) => "range/" + d + "/" + IntToString(n) + "/" + k.Name()
    case HolidaysOverRange(d, n) => "range/" + d + "/" + IntToString(n) + "/holidays"
    case Insights(d, n, r) => "range/" + d + "/" + IntToString(n) + "/insights/" + r.Name()
    case Rolling(r, w) => r.Name() + "/rolling/" + IntToString(w)
  }

  /** The view function of the features blueprint meant to answer the entry. */
  function HandlerOf(e: Endpoint): Handler {
    Features(
      match e
      case Dates => AllDates
      case Months => AllMonths
      case DatesInMonth(_) => MonthDates
      case OnDate(_, k) => ByDate(k)
      case OverRange(_, _, k) => ByRange(k)
      case HolidaysOverRange(_, _) => HolidaysByRange
      case Insights(_, _, r) => RangeInsights(r)
      case Rolling(r, _) => WithRolling(r))
  }

  /** The converter values that handler receives. */
  function ArgsOf(e: Endpoint): seq<string> {
    match e
    case Dates => []
    case Months => []
    case DatesInMonth(m) => [m]
    case OnDate(d, _) => [d]
    case OverRange(d, n, _) => [d, IntToString(n)]
    case HolidaysOverRange(d, n) => [d, IntToString(n)]
    case Insights(d, n, _) => [d, IntToString(n)]
    case Rolling(_, w) => [IntToString(w)]
  }

  /**
   * The caller-supplied parts of the entry are segments a URL carries
   * unaltered, and a per-date entry's date is not the literal `dates`, which
   * would send it to the month rule (see `DatesKeyMisrouted`).
   */
  predicate WellFormed(e: Endpoint) {
    match e
    case DatesInMonth(m) => ValidSegment(m)
    case OnDate(d, _) => ValidSegment(d) && d != "dates"
    case OverRange(d, _, _) => ValidSegment(d)
    case HolidaysOverRange(d, _) => ValidSegment(d)
    case Insights(d, _, _) => ValidSegment(d)
    case _ => true
  }

  /** `fetchData(endpoint)` of the feature service file. */
  function Fetch<J>(net: Http.Network<J>, e: Endpoint): Result<J, Http.FetchError> {
    Http.FetchData(net, Http.FeatureBase, Path(e))
  }

  lemma PathIsJoin(e: Endpoint)
    ensures Path(e) == Join(Segments(e), '/')
  {
    match e
    case Dates =>
    case Months =>
    case DatesInMonth(m) => JoinDatesInMonth(m);
    case OnDate(d, k) => JoinOnDate(d, k);
    case OverRange(d, n, k) => JoinOverRange(d, n, k);
    case HolidaysOverRange(d, n) => JoinHolidays(d, n);
    case Insights(d, n, r) => JoinInsights(d, n, r);
    case Rolling(r, w) => JoinRolling(r, w);
  }

  lemma JoinDatesInMonth(m: string)
    ensures Path(DatesInMonth(m)) == Join(Segments(DatesInMonth(m)), '/')
  {
    Join2("dates", m, '/');
  }

  lemma JoinOnDate(d: string, k: Report)
    ensures Path(OnDate(d, k)) == Join(Segments(OnDate(d, k)), '/')
  {
    Join2(d, k.Name(), '/');
  }

  lemma JoinOverRange(d: string, n: int, k: Report)
    ensures Path(OverRange(d, n, k)) == Join(Segments(OverRange(d, n, k)), '/')
  {
    Join4("range", d, IntToString(n), k.Name(), '/');
    assert "range/" == "range" + ['/'];
  }

  lemma JoinHolidays(d: string, n: int)
    ensures Path(HolidaysOverRange(d, n)) == Join(Segments(HolidaysOverRange(d, n)), '/')
  {
    Join4("range", d, IntToString(n), "holidays", '/');
    assert "range/" == "range" + ['/'];
    assert "/holidays" == ['/'] + "holidays";
  }

  lemma JoinInsights(d: string, n: int, r: Resource)
    ensures Path(Insights(d, n, r)) == Join(Segments(Insights(d, n, r)), '/')
  {
    var num, name := IntToString(n), r.Name();
    var head := "range/" + d + "/" + num;
    Join5("range", d, num, "insights", name, '/');
    assert "range" + ['/'] == "range/";
    assert "range" + ['/'] + d + ['/'] + num == head;
    InsightsGlue(head);
  }

  lemma InsightsGlue(head: string)
    ensures head + ['/'] + "insights" + ['/'] == head + "/insights/"
  {
    assert ['/'] + "insights" + ['/'] == "/insights/";
  }

  lemma JoinRolling(r: Resource, w: int)
    ensures Path(Rolling(r, w)) == Join(Segments(Rolling(r, w)), '/')
  {
    Join3(r.Name(), "rolling", IntToString(w), '/');
  }

  lemma SegmentsClean(e: Endpoint)
    requires WellFormed(e)
    ensures forall i :: 0 <= i < |Segments(e)| ==> '/' !in Segments(e)[i] && '?' !in Segments(e)[i]
  {
    match e
    case OnDate(_, k) => NameClean(k.Name());
    case OverRange(_, n, k) => NumberClean(n); NameClean(k.Name());
    case HolidaysOverRange(_, n) => NumberClean(n);
    case Insights(_, n, r) => NumberClean(n); NameClean(r.Name());
    case Rolling(r, w) => NumberClean(w); NameClean(r.Name());
    case _ =>
  }

  /** Report and resource names are plain lower-case words. */
  lemma NameClean(s: string)
    requires s in {"cpu", "storage", "users", "economy", "summary"}
    ensures '/' !in s && '?' !in s
  {
  }

  lemma NumberClean(n: int)
    ensures '/' !in IntToString(n) && '?' !in IntToString(n)
  {
    var s := IntToString(n);
    if n < 0 {
      assert s == "-" + NatToString(-n);
      assert forall i :: 1 <= i < |s| ==> IsDigit(s[i]);
    }
  }

  /** The full URL `fetchData` requests for an entry, split into path segments. */
  lemma UrlParts(e: Endpoint)
    requires WellFormed(e)
    ensures PathParts(Http.Url(Http.FeatureBase, Path(e)))
            == Some(["", "api", "features"] + Segments(e))
  {
    var segs := Segments(e);
    var parts := ["", "api", "features"] + segs;
    SegmentsClean(e);
    PathIsJoin(e);
    JoinAppend(["", "api", "features"], segs, '/');
    FeaturesHead();
    assert Http.Url(Http.FeatureBase, Path(e)) == Http.Host + Join(parts, '/');
    forall i | 0 <= i < |parts| ensures '/' !in parts[i] && '?' !in parts[i] {
      if i >= 3 {
        assert parts[i] == segs[i - 3];
      }
    }
    PathPartsOfJoin(parts);
  }

  lemma FeaturesHead()
    ensures Join(["", "api", "features"], '/') == "/api/features"
  {
    assert ["", "api", "features"][1..] == ["api", "features"];
    Join2("api", "features", '/');
    assert "api" + ['/'] + "features" == "api/features";
    assert ['/'] + "api/features" == "/api/features";
  }

  /**
   * Every entry the catalogue builds is answered by the blueprint rule meant for
   * it, and that rule's converters receive exactly the caller's arguments. A
   * rolling entry needs a non-negative window, since the rule's `int`
   * converter takes digits only (see `NegativeWindowUnrouted`).
   */
  lemma EndpointServed(e: Endpoint)
    requires WellFormed(e)
    requires e.Rolling? ==> e.window >= 0
    ensures Serves(Http.Url(Http.FeatureBase, Path(e)), HandlerOf(e), ArgsOf(e))
  {
    UrlParts(e);
    var parts := ["", "api", "features"] + Segments(e);
    BindsArgs(e);
    ServesVia(Http.Url(Http.FeatureBase, Path(e)), parts, HandlerOf(e), ArgsOf(e));
  }

  lemma BindsArgs(e: Endpoint)
    requires WellFormed(e)
    requires e.Rolling? ==> e.window >= 0
    ensures |ArgsOf(e)| == Arity(HandlerOf(e))
    ensures Binds(["", "api", "features"] + Segments(e), FullRule(HandlerOf(e)), ArgsOf(e))
  {
    var parts := ["", "api", "features"] + Segments(e);
    match e
    case Dates =>
    case Months =>
    case DatesInMonth(m) =>
    case OnDate(d, k) =>
    case OverRange(d, n, k) =>
    case HolidaysOverRange(d, n) =>
    case Insights(d, n, r) =>
    case Rolling(r, w) =>
  }

  /**
   * Flask dispatches every well-formed entry to the rule meant for it: any
   * other rule that matches the same URL (the per-date rule matches
   * `dates/cpu`, say) has a converter where the meant rule has a literal.
   */
  lemma EndpointDispatched(e: Endpoint)
    requires WellFormed(e)
    requires e.Rolling? ==> e.window >= 0
    ensures Dispatches(Http.Url(Http.FeatureBase, Path(e)), HandlerOf(e), ArgsOf(e))
  {
    var url := Http.Url(Http.FeatureBase, Path(e));
    EndpointServed(e);
    UrlParts(e);
    forall h, args | Serves(url, h, args)
      ensures (h == HandlerOf(e) && args == ArgsOf(e)) || Outranks(FullRule(HandlerOf(e)), FullRule(h))
    {
      OnlyOrOutranked(e, h, args);
    }
  }

  /** Any rule binding an entry's segments is the entry's own, or one that the entry's rule outranks. */
  lemma OnlyOrOutranked(e: Endpoint, h: Handler, args: seq<string>)
    requires WellFormed(e)
    requires |args| == Arity(h) && Binds(["", "api", "features"] + Segments(e), FullRule(h), args)
    ensures (h == HandlerOf(e) && args == ArgsOf(e)) || Outranks(FullRule(HandlerOf(e)), FullRule(h))
  {
    var parts := ["", "api", "features"] + Segments(e);
    var rule, own := FullRule(h), FullRule(HandlerOf(e));
    assert SegBinds(parts[2], rule[2], args);
    assert SegBinds(parts[3], rule[3], args);
    if e.DatesInMonth? && h.Features? && h.fv.ByDate? {
      assert own[3].Lit? && !rule[3].Lit?;
      assert forall j :: 0 <= j < 3 ==> own[j].Lit? == rule[j].Lit?;
      assert Outranks(own, rule);
    } else {
      if |parts| >= 5 {
        assert SegBinds(parts[4], rule[4], args);
      }
      if |parts| >= 6 {
        assert SegBinds(parts[5], rule[5], args);
      }
      if |parts| >= 7 {
        assert SegBinds(parts[6], rule[6], args);
      }
      if |parts| >= 8 {
        assert SegBinds(parts[7], rule[7], args);
      }
      assert h == HandlerOf(e);
      assert args == ArgsOf(e);
    }
  }

  /**
   * A per-date entry for the date `dates` builds `dates/<kind>`, which the
   * month rule also matches and Flask prefers: the per-date view never sees it.
   */
  lemma DatesKeyMisrouted(k: Report)
    ensures Serves(Http.Url(Http.FeatureBase, Path(OnDate("dates", k))), Features(MonthDates), [k.Name()])
    ensures !Dispatches(Http.Url(Http.FeatureBase, Path(OnDate("dates", k))), HandlerOf(OnDate("dates", k)), ArgsOf(OnDate("dates", k)))
  {
    var e := OnDate("dates", k);
    var url := Http.Url(Http.FeatureBase, Path(e));
    assert Path(e) == Path(DatesInMonth(k.Name()));
    EndpointServed(DatesInMonth(k.Name()));
    MonthRuleUnranked(k);
  }

  /** The per-date rule does not outrank the month rule: its fourth segment is a converter where the month rule has `dates`. */
  lemma MonthRuleUnranked(k: Report)
    ensures !Outranks(FullRule(Features(ByDate(k))), FullRule(Features(MonthDates)))
  {
    var a, b := FullRule(Features(ByDate(k))), FullRule(Features(MonthDates));
    assert !a[3].Lit? && b[3].Lit?;
  }

  /** A negative rolling window renders with a '-', which the `int` converter refuses: no rule answers. */
  lemma NegativeWindowUnrouted(r: Resource, w: int, args: seq<string>)
    requires w < 0
    ensures !Serves(Http.Url(Http.FeatureBase, Path(Rolling(r, w))), HandlerOf(Rolling(r, w)), args)
  {
    var e := Rolling(r, w);
    UrlParts(e);
    var parts := ["", "api", "features"] + Segments(e);
    assert parts[5] == IntToString(w);
    assert !IsDigit(parts[5][0]);
    assert !SegBinds(parts[5], FullRule(HandlerOf(e))[5], args);
  }

  /**
   * What a range handler does with its `<days>` argument: Python's `int()`
   * reads back exactly the number the frontend put in the path.
   */
  lemma RangeDaysRoundTrip(e: Endpoint)
    requires e.OverRange? || e.HolidaysOverRange? || e.Insights?
    ensures |ArgsOf(e)| == 2 && ArgsOf(e)[0] == e.date && ParseInt(ArgsOf(e)[1]) == Some(e.days)
  {
    IntRoundTrip(e.days);
    assert ArgsOf(e) == [e.date, IntToString(e.days)];
  }
}
