/**
 * The feature explorer page: a date type (a single date, a week, or a custom
 * number of days), a month and a date picked from lists the backend supplies,
 * a custom duration that must be locked before it is used, and the feature
 * data fetched for the chosen date. Each effect of the page is a function
 * from the state (and the network) to the state it leaves behind.
 */
module FeaturePage {
  import opened Wrappers
  import opened Text
  import Http
  import Routes
  import FeatureApi
  import FeatureRoutes
  import Calendar
  import Frames

  datatype Mode = DateMode | Week | Custom

  /**
   * The page's state. An empty string is "nothing selected"; `lockedDuration`
   * is `customLockedDuration`, `None` for null; `featureData` is the object
   * last set, empty at first.
   */
  datatype State<J> = State(
    mode: Mode, months: seq<string>, dates: seq<string>, month: string, date: string,
    duration: int, locked: bool, lockedDuration: Option<int>, featureData: map<string, J>)

  /** The page as it mounts, before its effects run. */
  function Initial<J>(): (s: State<J>)
    ensures s.mode == DateMode && s.month == "" && s.date == "" && s.dates == [] && s.months == []
    ensures s.duration == 7 && !s.locked && s.lockedDuration.None? && s.featureData == map[]
  {
    State(DateMode, [], [], "", "", 7, false, None, map[])
  }

  /** The duration a date type starts with: 1 for a single date, 7 for a week or a custom range. */
  function DefaultDuration(mode: Mode): (d: int)
    ensures d == (if mode == DateMode then 1 else 7)
  {
    match mode
    case Week => 7
    case DateMode => 1
    case Custom => 7
  }

  /**
   * The effect of a date-type change: every selection and the feature data
   * are cleared, the duration is unlocked and set to the type's default.
   */
  function Reset<J>(s: State<J>, mode: Mode): (t: State<J>)
    ensures t.mode == mode && t.months == s.months
    ensures t.month == "" && t.date == "" && t.dates == [] && t.featureData == map[]
    ensures !t.locked && t.lockedDuration.None?
    ensures t.duration == (if mode == DateMode then 1 else 7)
  {
    State(mode, s.months, [], "", "", DefaultDuration(mode), false, None, map[])
  }

  /** A reset forgets everything the previous date type had selected: the result depends on the months alone. */
  lemma ResetForgets<J>(s: State<J>, s': State<J>, mode: Mode)
    requires s.months == s'.months
    ensures Reset(s, mode) == Reset(s', mode)
  {
  }

  /**
   * How the page reads `available_months` or `available_dates` out of a
   * reply: the list when present, or the throw of a property access on a
   * `null` body.
   */
  type ListReader<!J> = J -> Http.Access<Option<seq<string>>>

  /**
   * `data.available_months || []` (or `available_dates`) after a fetch: the
   * listed strings, none when absent, or nothing at all when the fetch
   * fails or the read throws, which the effect's `catch` only logs.
   */
  function Listed<J>(net: Http.Network<J>, e: FeatureApi.Endpoint, read: ListReader<J>): (l: Option<seq<string>>)
    ensures l.None? <==> FeatureApi.Fetch(net, e).Err? || read(FeatureApi.Fetch(net, e).value).Throws?
    ensures l.Some? ==> l.value == read(FeatureApi.Fetch(net, e).value).value.GetOr([])
  {
    match FeatureApi.Fetch(net, e)
    case Err(_) => None
    case Ok(j) =>
      match read(j)
      case Throws => None
      case Fields(v) => Some(v.GetOr([]))
  }

  /** The months effect: the months the backend lists (none when absent); a failure keeps the old list. */
  function LoadMonths<J>(s: State<J>, net: Http.Network<J>, read: ListReader<J>): (t: State<J>)
    ensures t == s.(months := t.months)
    ensures var l := Listed(net, FeatureApi.Months, read);
            && (l.Some? ==> t.months == l.value)
            && (l.None? ==> t.months == s.months)
  {
    match Listed(net, FeatureApi.Months, read)
    case Some(months) => s.(months := months)
    case None => s
  }

  /** JavaScript's `list.slice(0, end)`: a negative end counts back from the length. */
  function SliceTo<T>(s: seq<T>, end: int): (r: seq<T>)
    ensures end >= 0 ==> |r| == if end < |s| then end else |s|
    ensures end < 0 ==> |r| == if |s| + end > 0 then |s| + end else 0
    ensures |r| <= |s| && r == s[..|r|]
  {
    if end < 0 then (if |s| + end > 0 then s[..|s| + end] else [])
    else if end < |s| then s[..end] else s
  }

  /** The range length the date list is cut for: 7 for a week, else the locked duration, or the typed one when that is null or 0. */
  function TrimDuration<J>(s: State<J>): int {
    if s.mode == Week then 7
    else if s.lockedDuration.Some? && s.lockedDuration.value != 0 then s.lockedDuration.value
    else s.duration
  }

  /** A list of `n` dates shows `shown` starting dates, and each starts a `dur`-day run inside the list. */
  predicate Fits(n: int, shown: int, dur: int) {
    forall i :: 0 <= i < shown ==> RunEnd(i, dur) < n
  }

  /** The position of the last day of a `dur`-day run starting at position `i`. */
  function RunEnd(i: int, dur: int): int {
    i + dur - 1
  }

  /**
   * The date list as the page cuts it:
   * `dates.slice(0, dates.length - (dur - 1))`. Longer runs than the list
   * make the end negative, and the slice then counts back from the end.
   */
  function TrimAsWritten(dates: seq<string>, dur: int): (r: seq<string>)
    ensures |r| <= |dates| && r == dates[..|r|]
  {
    SliceTo(dates, |dates| - (dur - 1))
  }

  /**
   * With 5 dates and a 7-day run the page still shows 4 starting dates,
   * although no 7-day run fits in the month.
   */
  lemma TrimOverrun()
    ensures var dates := ["2023-02-24", "2023-02-25", "2023-02-26", "2023-02-27", "2023-02-28"];
            && |TrimAsWritten(dates, 7)| == 4
            && !Fits(5, 4, 7)
            && |Trim(dates, 7)| == 0
  {
    var dates := ["2023-02-24", "2023-02-25", "2023-02-26", "2023-02-27", "2023-02-28"];
    assert |TrimAsWritten(dates, 7)| == 4;
    assert RunEnd(0, 7) == 6;
  }

  /**
   * The intended cut: the first dates from which a `dur`-day run stays in the
   * list, and all of them.
   */
  function Trim(dates: seq<string>, dur: int): (r: seq<string>)
    ensures |r| <= |dates| && r == dates[..|r|]
    ensures Fits(|dates|, |r|, dur)
    ensures |r| < |dates| ==> |r| + dur - 1 >= |dates|
  {
    var end := |dates| - (dur - 1);
    if end <= 0 then [] else if end < |dates| then dates[..end] else dates
  }

  /** The two cuts agree whenever the run fits in the list at all. */
  lemma TrimAgrees(dates: seq<string>, dur: int)
    requires dur - 1 <= |dates|
    ensures TrimAsWritten(dates, dur) == Trim(dates, dur)
  {
  }

  /**
   * The dates effect: no month gives no dates; otherwise the month's dates
   * (none when absent), cut as the page cuts them for a week or a custom
   * range; a failure keeps the old list.
   */
  function LoadDates<J>(s: State<J>, net: Http.Network<J>, read: ListReader<J>): (t: State<J>)
    ensures t == s.(dates := t.dates)
    ensures s.month == "" ==> t.dates == []
    ensures s.month != "" ==>
              var l := Listed(net, FeatureApi.DatesInMonth(s.month), read);
              && (l.None? ==> t.dates == s.dates)
              && (l.Some? && s.mode == DateMode ==> t.dates == l.value)
              && (l.Some? && s.mode != DateMode ==> t.dates == TrimAsWritten(l.value, TrimDuration(s)))
  {
    CutDates(s, net, read, TrimAsWritten)
  }

  /** The dates effect with the intended cut in place of the page's `slice`. */
  function LoadDatesIntended<J>(s: State<J>, net: Http.Network<J>, read: ListReader<J>): (t: State<J>)
    ensures t == s.(dates := t.dates)
    ensures s.month == "" ==> t.dates == []
    ensures s.month != "" ==>
              var l := Listed(net, FeatureApi.DatesInMonth(s.month), read);
              && (l.None? ==> t.dates == s.dates)
              && (l.Some? && s.mode == DateMode ==> t.dates == l.value)
              && (l.Some? && s.mode != DateMode ==> t.dates == Trim(l.value, TrimDuration(s)))
  {
    CutDates(s, net, read, Trim)
  }

  /** The shape both dates effects share, given the cut applied in the range modes. */
  function CutDates<J>(s: State<J>, net: Http.Network<J>, read: ListReader<J>,
                       cut: (seq<string>, int) -> seq<string>): State<J> {
    if s.month == "" then s.(dates := [])
    else
      match Listed(net, FeatureApi.DatesInMonth(s.month), read)
      case None => s
      case Some(available) =>
        if |available| > 0 && s.mode != DateMode then s.(dates := cut(available, TrimDuration(s)))
        else s.(dates := available)
  }

  /**
   * The page offers only start dates whose run stays within the month's dates
   * as long as the run is at most one day longer than the list; longer runs
   * overrun (see `TrimOverrun`).
   */
  lemma OfferedRangesFit<J>(s: State<J>, net: Http.Network<J>, read: ListReader<J>)
    requires s.month != "" && s.mode != DateMode
    requires Listed(net, FeatureApi.DatesInMonth(s.month), read).Some?
    requires TrimDuration(s) - 1 <= |Listed(net, FeatureApi.DatesInMonth(s.month), read).value|
    ensures var all := Listed(net, FeatureApi.DatesInMonth(s.month), read).value;
            var shown := LoadDates(s, net, read).dates;
            shown == all[..|shown|] && Fits(|all|, |shown|, TrimDuration(s))
  {
  }

  /** With the intended cut, every offered start date begins a run within the month's dates, whatever the run's length. */
  lemma OfferedRangesFitIntended<J>(s: State<J>, net: Http.Network<J>, read: ListReader<J>)
    requires s.month != "" && s.mode != DateMode
    requires Listed(net, FeatureApi.DatesInMonth(s.month), read).Some?
    ensures var all := Listed(net, FeatureApi.DatesInMonth(s.month), read).value;
            var shown := LoadDatesIntended(s, net, read).dates;
            shown == all[..|shown|] && Fits(|all|, |shown|, TrimDuration(s))
  {
  }

  /** A custom lock that is usable: set and positive. */
  predicate UsableLock<J>(s: State<J>) {
    s.lockedDuration.Some? && s.lockedDuration.value > 0
  }

  /** Whether the features effect fetches at all: a date is chosen, and a custom range is locked to a positive length. */
  predicate CanFetch<J>(s: State<J>) {
    s.date != "" && (s.mode == Custom ==> UsableLock(s))
  }

  /** The range length of the feature requests: 1 for a date, 7 for a week, the locked length for a custom range. */
  function RangeDays<J>(s: State<J>): (n: int)
    requires CanFetch(s)
    ensures n >= 1
    ensures s.mode == DateMode ==> n == 1
    ensures s.mode == Week ==> n == 7
    ensures s.mode == Custom ==> Some(n) == s.lockedDuration
  {
    match s.mode
    case DateMode => 1
    case Week => 7
    case Custom => s.lockedDuration.value
  }

  /** The keys of the single-date result. */
  const DayKeys: seq<string> := ["cpu", "storage", "users", "economy", "summary"]

  /** The keys a range result adds. */
  const RangeExtraKeys: seq<string> := ["holidays", "cpuInsights", "storageInsights", "usersInsights"]

  /** The requests of the features effect, in the order it awaits them, each with its result key. */
  function Requests<J>(s: State<J>): (qs: seq<(string, FeatureApi.Endpoint)>)
    requires CanFetch(s)
    ensures |qs| == if s.mode == DateMode then 5 else 9
    ensures forall i :: 0 <= i < |qs| ==> qs[i].0 == (DayKeys + RangeExtraKeys)[i]
  {
    var d := s.date;
    if s.mode == DateMode then
      [("cpu", FeatureApi.OnDate(d, Routes.CpuReport)), ("storage", FeatureApi.OnDate(d, Routes.StorageReport)),
       ("users", FeatureApi.OnDate(d, Routes.UsersReport)), ("economy", FeatureApi.OnDate(d, Routes.EconomyReport)),
       ("summary", FeatureApi.OnDate(d, Routes.SummaryReport))]
    else
      var n := RangeDays(s);
      [("cpu", FeatureApi.OverRange(d, n, Routes.CpuReport)),
       ("storage", FeatureApi.OverRange(d, n, Routes.StorageReport)),
       ("users", FeatureApi.OverRange(d, n, Routes.UsersReport)),
       ("economy", FeatureApi.OverRange(d, n, Routes.EconomyReport)),
       ("summary", FeatureApi.OverRange(d, n, Routes.SummaryReport)),
       ("holidays", FeatureApi.HolidaysOverRange(d, n)),
       ("cpuInsights", FeatureApi.Insights(d, n, Routes.Cpu)),
       ("storageInsights", FeatureApi.Insights(d, n, Routes.Storage)),
       ("usersInsights", FeatureApi.Insights(d, n, Routes.Users))]
  }

  /** Awaiting each request in turn: every value when all succeed, nothing once one fails. */
  function FetchAll<J>(net: Http.Network<J>, qs: seq<(string, FeatureApi.Endpoint)>): (r: Option<seq<J>>)
    ensures r.Some? <==> forall i :: 0 <= i < |qs| ==> FeatureApi.Fetch(net, qs[i].1).Ok?
    ensures r.Some? ==> |r.value| == |qs|
                        && forall i :: 0 <= i < |qs| ==> r.value[i] == FeatureApi.Fetch(net, qs[i].1).value
    decreases |qs|
  {
    if |qs| == 0 then Some([])
    else
      match FeatureApi.Fetch(net, qs[0].1)
      case Err(_) => None
      case Ok(v) =>
        var rest := FetchAll(net, qs[1..]);
        assert forall i :: 1 <= i < |qs| ==> qs[i] == qs[1..][i - 1];
        if rest.None? then None else Some([v] + rest.value)
  }

  function KeysOf(qs: seq<(string, FeatureApi.Endpoint)>): (ks: seq<string>)
    ensures |ks| == |qs| && forall i :: 0 <= i < |qs| ==> ks[i] == qs[i].0
  {
    seq(|qs|, i requires 0 <= i < |qs| => qs[i].0)
  }

  /**
   * The features effect: without a date, or in custom mode without a usable
   * lock, nothing happens; otherwise the feature data is replaced once every
   * request has succeeded, with the five single-date keys or the nine range
   * keys, and left as it was if any request fails.
   */
  function LoadFeatures<J>(s: State<J>, net: Http.Network<J>): (t: State<J>)
    ensures t == s.(featureData := t.featureData)
    ensures !CanFetch(s) ==> t == s
    ensures CanFetch(s) && FetchAll(net, Requests(s)).None? ==> t == s
    ensures CanFetch(s) && FetchAll(net, Requests(s)).Some? ==>
              && (forall k :: k in t.featureData <==>
                    k in DayKeys || (s.mode != DateMode && k in RangeExtraKeys))
              && t.featureData == Frames.Payload(KeysOf(Requests(s)), FetchAll(net, Requests(s)).value)
  {
    if !CanFetch(s) then s
    else
      var qs := Requests(s);
      match FetchAll(net, qs)
      case None => s
      case Some(values) =>
        var keys := KeysOf(qs);
        assert s.mode == DateMode ==> keys == DayKeys;
        assert s.mode != DateMode ==> keys == DayKeys + RangeExtraKeys;
        s.(featureData := Frames.Payload(keys, values))
  }

  /**
   * What the backend does with the page's range requests: for a date the
   * backend wrote, each one is a valid start and length, the length the page
   * meant.
   */
  lemma RangeRequestsRead<J>(s: State<J>, day: Calendar.Date)
    requires CanFetch(s) && s.mode != DateMode
    requires Calendar.Valid(day) && 1 <= day.year <= 9999 && s.date == Calendar.DateKey(day)
    ensures forall i :: 0 <= i < |Requests(s)| ==>
              var e := Requests(s)[i].1;
              (e.OverRange? || e.HolidaysOverRange? || e.Insights?)
              && FeatureRoutes.RangeRequest(e.date, IntToString(e.days)) == Some((day, RangeDays(s)))
  {
    var n := RangeDays(s);
    RangeRequestsShape(s);
    FeatureRoutes.RangeRequestOfBuilder(day, n);
    forall i | 0 <= i < |Requests(s)|
      ensures FeatureRoutes.RangeRequest(Requests(s)[i].1.date, IntToString(Requests(s)[i].1.days)) == Some((day, n))
    {
      var e := Requests(s)[i].1;
      assert e.date == Calendar.DateKey(day) && e.days == n;
    }
  }

  /** Every request of a range fetch is a range endpoint for the chosen date and the range's length. */
  lemma RangeRequestsShape<J>(s: State<J>)
    requires CanFetch(s) && s.mode != DateMode
    ensures forall i :: 0 <= i < |Requests(s)| ==>
              var e := Requests(s)[i].1;
              (e.OverRange? || e.HolidaysOverRange? || e.Insights?) && e.date == s.date && e.days == RangeDays(s)
  {
  }

  /** The custom duration's text box: editable only while unlocked. */
  function EditDuration<J>(s: State<J>, d: int): (t: State<J>)
    ensures t.duration == (if s.locked then s.duration else d)
    ensures t == s.(duration := t.duration)
  {
    if s.locked then s else s.(duration := d)
  }

  /**
   * The lock button: locking captures the typed duration, unlocking clears
   * it; either way the lock flips and the chosen date and the feature data
   * are cleared.
   */
  function ToggleLock<J>(s: State<J>): (t: State<J>)
    ensures t.locked == !s.locked
    ensures t.lockedDuration == (if s.locked then None else Some(s.duration))
    ensures t.date == "" && t.featureData == map[]
    ensures t.mode == s.mode && t.month == s.month && t.months == s.months && t.dates == s.dates
    ensures t.duration == s.duration
  {
    s.(lockedDuration := if !s.locked then Some(s.duration) else None, locked := !s.locked,
       date := "", featureData := map[])
  }

  /** Toggling the lock never triggers a fetch of features: the date it clears stops the effect first. */
  lemma ToggleThenLoad<J>(s: State<J>, net: Http.Network<J>)
    ensures LoadFeatures(ToggleLock(s), net).featureData == map[]
  {
  }

  /** Locking and unlocking again leaves the lock as it was, with no captured duration. */
  lemma LockUnlock<J>(s: State<J>)
    requires !s.locked
    ensures var t := ToggleLock(ToggleLock(s));
            !t.locked && t.lockedDuration.None? && t.duration == s.duration
  {
  }

  /** The date selector is shown once a month is chosen, except in custom mode while unlocked. */
  predicate DatePickerShown<J>(s: State<J>) {
    s.month != "" && (s.mode != Custom || s.locked)
  }

  /** The results are shown once a date is chosen, except in custom mode while unlocked. */
  predicate ResultsShown<J>(s: State<J>) {
    s.date != "" && (s.mode != Custom || s.locked)
  }

  /** Unlocking a custom range hides both the date selector and the results. */
  lemma UnlockHides<J>(s: State<J>)
    requires s.mode == Custom && s.locked
    ensures !DatePickerShown(ToggleLock(s)) && !ResultsShown(ToggleLock(s))
  {
  }

  /** The lock flag and the captured duration move together: a length is held exactly while locked. */
  predicate LockCoherent<J>(s: State<J>) {
    s.locked <==> s.lockedDuration.Some?
  }

  /**
   * Every state the page can reach keeps the lock coherent: the mounted page
   * does, and so does every change the page makes, whether a control (date
   * type, month, date, duration, lock) or an effect (months, dates,
   * features).
   */
  lemma LockCoherentKept<J>(s: State<J>, net: Http.Network<J>, read: ListReader<J>,
                            mode: Mode, choice: string, d: int)
    requires LockCoherent(s)
    ensures LockCoherent(Initial<J>())
    ensures LockCoherent(Reset(s, mode)) && LockCoherent(ToggleLock(s)) && LockCoherent(EditDuration(s, d))
    ensures LockCoherent(s.(month := choice)) && LockCoherent(s.(date := choice))
    ensures LockCoherent(LoadMonths(s, net, read)) && LockCoherent(LoadDates(s, net, read))
    ensures LockCoherent(LoadFeatures(s, net))
  {
  }

  /** A custom range whose results are on screen in a reachable state was fetched with its locked length: it has a length set. */
  lemma ShownCustomIsLocked<J>(s: State<J>)
    requires s.mode == Custom && ResultsShown(s) && LockCoherent(s)
    ensures s.lockedDuration.Some?
  {
  }
}
