/**
 * The features blueprint: the loaded feature table, `parse_json_field`, the
 * per-date and per-range reports, the holiday split, the rolling-average
 * series and the date and month lists. The JSON parsers `parse_json_field`
 * tries first, and the shape of the dictionaries they yield, are inputs:
 * `JsonReader` stands for `json.loads` falling back to `ast.literal_eval`,
 * `DictReader` for `isinstance(parsed, dict)` with its `"min"`/`"max"`
 * entries, and `ValueOf` for a candidate's `"value"` entry.
 */
module FeatureRoutes {
  import opened Wrappers
  import opened Text
  import opened Calendar
  import opened Stats
  import opened Sorting
  import opened Frames
  import Routes

  // ---------------------------------------------------------------------------
  // parse_json_field

  /** A cell of a text column: a string, or the missing value pandas reads for an empty field. */
  datatype Cell = TextCell(text: string) | MissingCell

  /** What `parse_json_field` returns: a parsed JSON value, the quoted items of a numpy rendering, or its input. */
  datatype Field<J> = Decoded(json: J) | Quoted(items: seq<string>) | Unparsed(cell: Cell)

  /** `json.loads` of the text with `'` turned into `"`, falling back to `ast.literal_eval`; None when both raise. */
  type JsonReader<!J> = string -> Option<J>

  predicate Bracketed(v: string) {
    StartsWith(v, "{") || StartsWith(v, "[")
  }

  /** The guard of the numpy-array branch. */
  predicate LooksQuoted(v: string) {
    StartsWith(v, "[") && '\'' in v && ' ' in v
  }

  /** Every item is non-empty and free of single quotes. */
  predicate ItemsClean(items: seq<string>) {
    forall k :: 0 <= k < |items| ==> |items[k]| > 0 && '\'' !in items[k]
  }

  /** The first quote at or after position `i`, or `|s|` when there is none. */
  function NextQuote(s: string, i: nat): (j: nat)
    requires i <= |s|
    ensures i <= j <= |s|
    ensures forall k :: i <= k < j ==> s[k] != '\''
    ensures j < |s| ==> s[j] == '\''
    decreases |s| - i
  {
    if i == |s| || s[i] == '\'' then i else NextQuote(s, i + 1)
  }

  /**
   * `re.findall(r"'([^']+)'", s)`: scanning left to right, a quote followed by
   * at least one non-quote character and a closing quote yields the characters
   * between the quotes, and the scan resumes after the closing quote.
   */
  function QuotedItems(s: string): (items: seq<string>)
    ensures ItemsClean(items)
    decreases |s|
  {
    if |s| == 0 then []
    else if s[0] != '\'' then QuotedItems(s[1..])
    else
      var j := NextQuote(s, 1);
      if 1 < j < |s| then
        var item := s[1..j];
        assert forall k :: 0 <= k < |item| ==> item[k] == s[k + 1];
        [item] + QuotedItems(s[j + 1..])
      else QuotedItems(s[1..])
  }

  /** `parse_json_field(value)` on one cell of the table. */
  function ParseJsonField<J>(cell: Cell, read: JsonReader<J>): (f: Field<J>)
    ensures cell.MissingCell? ==> f == Unparsed(cell)
    ensures cell.TextCell? ==>
              var v := Strip(cell.text);
              (f.Decoded? <==> Bracketed(v) && read(v).Some?)
              && (f.Decoded? ==> read(v) == Some(f.json))
              && (f.Quoted? <==> !(Bracketed(v) && read(v).Some?) && LooksQuoted(v))
              && (f.Quoted? ==> ItemsClean(f.items))
              && (f.Unparsed? ==> f.cell == TextCell(v))
  {
    match cell
    case MissingCell => Unparsed(cell)
    case TextCell(s) =>
      var v := Strip(s);
      if Bracketed(v) && read(v).Some? then Decoded(read(v).value)
      else if LooksQuoted(v) then Quoted(QuotedItems(v))
      else Unparsed(TextCell(v))
  }

  /** How numpy prints an array of strings: `['east us' 'west us']`. */
  function NumpyText(items: seq<string>): string {
    "[" + QuotedList(items) + "]"
  }

  function QuotedList(items: seq<string>): string
    decreases |items|
  {
    if |items| == 0 then ""
    else if |items| == 1 then "'" + items[0] + "'"
    else "'" + items[0] + "' " + QuotedList(items[1..])
  }

  /** The regex scan reads back exactly the items of a numpy rendering. */
  lemma QuotedRoundTrip(items: seq<string>)
    requires ItemsClean(items)
    ensures QuotedItems(NumpyText(items)) == items
  {
    var t := QuotedList(items) + "]";
    assert NumpyText(items) == ['['] + t;
    SkipChar('[', t);
    ListItems(items);
  }

  /**
   * A numpy rendering of two or more items that the JSON readers reject comes
   * out of `parse_json_field` as its items.
   */
  lemma ParseNumpy<J>(items: seq<string>, read: JsonReader<J>)
    requires ItemsClean(items) && |items| >= 2
    requires read(NumpyText(items)).None?
    ensures ParseJsonField(TextCell(NumpyText(items)), read) == Quoted(items)
  {
    var v := NumpyText(items);
    var rest := QuotedList(items[1..]);
    assert QuotedList(items) == "'" + items[0] + "' " + rest;
    assert v == "['" + items[0] + "' " + rest + "]";
    assert v[1] == '\'';
    assert v[|items[0]| + 3] == ' ';
    StripNoSpace(v);
    QuotedRoundTrip(items);
  }

  lemma SkipChar(c: char, t: string)
    requires c != '\''
    ensures QuotedItems([c] + t) == QuotedItems(t)
  {
    assert ([c] + t)[1..] == t;
  }

  lemma TakeItem(x: string, t: string)
    requires |x| > 0 && '\'' !in x
    ensures QuotedItems("'" + x + "'" + t) == [x] + QuotedItems(t)
  {
    var s := "'" + x + "'" + t;
    var e := |x| + 1;
    assert forall k :: 1 <= k < e ==> s[k] == x[k - 1];
    assert s[e] == '\'';
    var j := NextQuote(s, 1);
    assert j == e;
    assert s[1..e] == x;
    assert s[e + 1..] == t;
  }

  lemma {:induction false} ListItems(items: seq<string>)
    requires ItemsClean(items)
    ensures QuotedItems(QuotedList(items) + "]") == items
    decreases |items|
  {
    if |items| == 0 {
      SkipChar(']', "");
    } else if |items| == 1 {
      assert QuotedList(items) + "]" == "'" + items[0] + "'" + "]";
      TakeItem(items[0], "]");
      SkipChar(']', "");
    } else {
      var rest := QuotedList(items[1..]) + "]";
      assert QuotedList(items) + "]" == "'" + items[0] + "'" + ([' '] + rest);
      TakeItem(items[0], [' '] + rest);
      SkipChar(' ', rest);
      ListItems(items[1..]);
      assert [items[0]] + items[1..] == items;
    }
  }

  // ---------------------------------------------------------------------------
  // The feature table

  /** One resource's columns: the JSON-ish extremes cell, `<r>_mean`, `<r>_tot` and `<r>_std`. */
  datatype ResourceColumns = ResourceColumns(extremes: Cell, mean: real, total: real, std: real)

  /** A row of `feature_engineered.csv`, with the columns the routes read. */
  datatype FeatureRow = FeatureRow(
    date: Date, holiday: int,
    cpu: ResourceColumns, storage: ResourceColumns, users: ResourceColumns,
    economicIndex: real, cloudMarketDemand: real,
    uniqueRegions: real, totalRecords: real, resourcesPerRegion: Cell)

  function Columns(row: FeatureRow, res: Routes.Resource): ResourceColumns {
    match res
    case Cpu => row.cpu
    case Storage => row.storage
    case Users => row.users
  }

  /** A date `"%Y-%m-%d"` can print. */
  predicate DateOk(d: Date) {
    Valid(d) && 1 <= d.year <= 9999
  }

  /** The table as loaded: every `date` parsed to a calendar date of years 1 to 9999. */
  predicate Loaded(rows: seq<FeatureRow>) {
    forall x :: x in rows ==> DateOk(x.date)
  }

  /** A route's error reply: the status and the `error` text. */
  datatype Failure = Failure(status: int, error: string)

  /** One column of the rows, in row order. */
  function Project(rows: seq<FeatureRow>, column: FeatureRow -> real): (s: seq<real>)
    ensures |s| == |rows| && forall i :: 0 <= i < |rows| ==> s[i] == column(rows[i])
  {
    seq(|rows|, i requires 0 <= i < |rows| => column(rows[i]))
  }

  function Dates(rows: seq<FeatureRow>): (ds: seq<Date>)
    ensures |ds| == |rows| && forall i :: 0 <= i < |rows| ==> ds[i] == rows[i].date
  {
    seq(|rows|, i requires 0 <= i < |rows| => rows[i].date)
  }

  /** The dates column holds exactly the dates some row carries. */
  lemma DatesHeld(rows: seq<FeatureRow>)
    ensures forall d :: d in Dates(rows) <==> HasDay(rows, d)
  {
    var ds := Dates(rows);
    forall d | d in ds
      ensures HasDay(rows, d)
    {
      var i :| 0 <= i < |ds| && ds[i] == d;
      assert rows[i] in rows;
    }
    forall d | HasDay(rows, d)
      ensures d in ds
    {
      var x :| x in rows && x.date == d;
      var i :| 0 <= i < |rows| && rows[i] == x;
      assert ds[i] == d;
    }
  }

  function MeanOf(row: FeatureRow, res: Routes.Resource): real { Columns(row, res).mean }
  function TotalOf(row: FeatureRow, res: Routes.Resource): real { Columns(row, res).total }
  function StdOf(row: FeatureRow, res: Routes.Resource): real { Columns(row, res).std }

  /** A resource's `_mean` column over the rows, in row order. */
  function MeanColumn(rows: seq<FeatureRow>, res: Routes.Resource): (s: seq<real>)
    ensures |s| == |rows| && forall i :: 0 <= i < |rows| ==> s[i] == MeanOf(rows[i], res)
  {
    seq(|rows|, i requires 0 <= i < |rows| => MeanOf(rows[i], res))
  }

  /** A resource's `_tot` column over the rows, in row order. */
  function TotalColumn(rows: seq<FeatureRow>, res: Routes.Resource): (s: seq<real>)
    ensures |s| == |rows| && forall i :: 0 <= i < |rows| ==> s[i] == TotalOf(rows[i], res)
  {
    seq(|rows|, i requires 0 <= i < |rows| => TotalOf(rows[i], res))
  }

  /** A resource's `_std` column over the rows, in row order. */
  function StdColumn(rows: seq<FeatureRow>, res: Routes.Resource): (s: seq<real>)
    ensures |s| == |rows| && forall i :: 0 <= i < |rows| ==> s[i] == StdOf(rows[i], res)
  {
    seq(|rows|, i requires 0 <= i < |rows| => StdOf(rows[i], res))
  }

  // ---------------------------------------------------------------------------
  // get_range_data

  /**
   * The start date and day count of a range request: the date must read as a
   * `"YYYY-MM-DD"` date and the count as an integer of at least 1.
   */
  function RangeRequest(dateText: string, daysText: string): (r: Option<(Date, nat)>)
    ensures r.Some? ==> DateOk(r.value.0) && r.value.1 >= 1
    ensures r.None? <==> ParseDateKey(dateText).None? || ParseInt(daysText).None? || ParseInt(daysText).value < 1
    ensures r.Some? ==> ParseDateKey(dateText) == Some(r.value.0) && ParseInt(daysText) == Some(r.value.1 as int)
  {
    match (ParseDateKey(dateText), ParseInt(daysText))
    case (Some(start), Some(n)) => if n >= 1 then Some((start, n as nat)) else None
    case _ => None
  }

  /** The date and day count the frontend puts in a range URL read back as that date and count. */
  lemma RangeRequestOfBuilder(d: Date, n: nat)
    requires DateOk(d) && n >= 1
    ensures RangeRequest(DateKey(d), IntToString(n)) == Some((d, n))
  {
    DateKeyRoundTrip(d);
    IntRoundTrip(n);
  }

  /** Every day of the `n` days from `start` has at least one row. */
  predicate Covered(rows: seq<FeatureRow>, start: Date, n: nat)
    requires Valid(start)
  {
    forall k :: 0 <= k < n ==> HasDay(rows, AddDays(start, k))
  }

  /** `d` is `k` days after `start`. */
  predicate DayStep(start: Date, k: nat, d: Date)
    requires Valid(start)
  {
    AddDays(start, k) == d
  }

  /** Some row is dated `d`. */
  predicate HasDay(rows: seq<FeatureRow>, d: Date) {
    exists x :: x in rows && x.date == d
  }

  predicate Between(x: FeatureRow, lo: Date, hi: Date) {
    Ord(lo) <= Ord(x.date) <= Ord(hi)
  }

  /**
   * `get_range_data(date, days)`: None for an unreadable date or count, a count
   * below 1, or a day of the range without a row; otherwise the rows dated
   * within the closed range, in table order.
   */
  function GetRangeData(rows: seq<FeatureRow>, dateText: string, daysText: string): (r: Option<seq<FeatureRow>>)
    ensures r.Some? <==> RangeRequest(dateText, daysText).Some?
                         && Covered(rows, RangeRequest(dateText, daysText).value.0, RangeRequest(dateText, daysText).value.1)
    ensures r.Some? ==> var (start, n) := RangeRequest(dateText, daysText).value;
                        forall x :: x in r.value <==> x in rows && InRange(start, n, x.date)
    ensures r.Some? ==> var (start, n) := RangeRequest(dateText, daysText).value;
                        r.value == Where(rows, (x: FeatureRow) => InRange(start, n, x.date))
    ensures r.Some? ==> |r.value| > 0
  {
    match RangeRequest(dateText, daysText)
    case None => None
    case Some((start, n)) =>
      if Covered(rows, start, n) then
        var hi := AddDays(start, n - 1);
        var range := Where(rows, x => Between(x, start, hi));
        WhereExt(rows, x => Between(x, start, hi), (x: FeatureRow) => InRange(start, n, x.date));
        RangeHasDays(rows, start, n, range);
        Some(range)
      else None
  }

  /**
   * A range that `get_range_data` returns is never empty, has a row for every
   * day of the range, and every row it has is dated on one of those days.
   */
  lemma RangeDays(rows: seq<FeatureRow>, dateText: string, daysText: string)
    requires Loaded(rows) && GetRangeData(rows, dateText, daysText).Some?
    ensures var (start, n) := RangeRequest(dateText, daysText).value;
            var range := GetRangeData(rows, dateText, daysText).value;
            |range| > 0
            && (forall k :: 0 <= k < n ==> HasDay(range, AddDays(start, k)))
            && (forall x :: x in range ==> exists k :: 0 <= k < n && DayStep(start, k, x.date))
  {
    var req := RangeRequest(dateText, daysText).value;
    RangeCovers(rows, req.0, req.1, GetRangeData(rows, dateText, daysText).value);
  }

  lemma RangeCovers(rows: seq<FeatureRow>, start: Date, n: nat, range: seq<FeatureRow>)
    requires Loaded(rows) && Valid(start) && n >= 1 && Covered(rows, start, n)
    requires forall x :: x in range <==> x in rows && InRange(start, n, x.date)
    ensures |range| > 0
    ensures forall k :: 0 <= k < n ==> HasDay(range, AddDays(start, k))
    ensures forall x :: x in range ==> exists k :: 0 <= k < n && DayStep(start, k, x.date)
  {
    RangeHasDays(rows, start, n, range);
    RangeOnDays(rows, start, n, range);
  }

  lemma RangeHasDays(rows: seq<FeatureRow>, start: Date, n: nat, range: seq<FeatureRow>)
    requires Valid(start) && n >= 1 && Covered(rows, start, n)
    requires forall x :: x in range <==> x in rows && InRange(start, n, x.date)
    ensures |range| > 0
    ensures forall k :: 0 <= k < n ==> HasDay(range, AddDays(start, k))
  {
    forall k | 0 <= k < n
      ensures HasDay(range, AddDays(start, k))
    {
      assert HasDay(rows, AddDays(start, k));
      var x :| x in rows && x.date == AddDays(start, k);
      StepInRange(start, n, k);
      assert x in range;
    }
    assert HasDay(range, AddDays(start, 0));
  }

  lemma RangeOnDays(rows: seq<FeatureRow>, start: Date, n: nat, range: seq<FeatureRow>)
    requires Loaded(rows) && Valid(start) && n >= 1
    requires forall x :: x in range <==> x in rows && InRange(start, n, x.date)
    ensures forall x :: x in range ==> exists k :: 0 <= k < n && DayStep(start, k, x.date)
  {
    forall x | x in range
      ensures exists k :: 0 <= k < n && DayStep(start, k, x.date)
    {
      assert x in rows;
      var k := RangeStep(start, n, x.date);
      assert DayStep(start, k, x.date);
    }
  }

  /** The 404 every full-range route answers when `get_range_data` gives nothing. */
  function RangeError(dateText: string, daysText: string): Failure {
    Failure(404, "No data for full range starting at " + dateText + " for " + daysText + " days")
  }

  // ---------------------------------------------------------------------------
  // Range reports: cpu / storage / users, economy, summary

  /** `isinstance(parsed, dict)`, with the dictionary's `"min"` and `"max"` entries when it is one. */
  type DictReader<!J> = J -> Option<Extremes<J>>

  datatype Extremes<J> = Extremes(min: Option<J>, max: Option<J>)

  /** A candidate's `"value"` entry. */
  type ValueOf<!J> = J -> real

  /** The extremes one row contributes: none unless its field parses to a dictionary. */
  function DayExtremes<J>(row: FeatureRow, res: Routes.Resource, read: JsonReader<J>, dict: DictReader<J>): (e: Extremes<J>)
    ensures e.min.Some? || e.max.Some? ==>
              var f := ParseJsonField(Columns(row, res).extremes, read);
              f.Decoded? && dict(f.json) == Some(e)
  {
    var f := ParseJsonField(Columns(row, res).extremes, read);
    if f.Decoded? && dict(f.json).Some? then dict(f.json).value else Extremes(None, None)
  }

  /** `min_candidates`: the `"min"` entries of the rows, in row order. */
  function MinCandidates<J>(range: seq<FeatureRow>, res: Routes.Resource, read: JsonReader<J>, dict: DictReader<J>): seq<J> {
    Present(Lows(range, res, read, dict))
  }

  /** Each row's `"min"` entry, where it has one. */
  function Lows<J>(range: seq<FeatureRow>, res: Routes.Resource, read: JsonReader<J>, dict: DictReader<J>): (r: seq<Option<J>>)
    ensures |r| == |range| && forall i :: 0 <= i < |range| ==> r[i] == DayExtremes(range[i], res, read, dict).min
  {
    seq(|range|, i requires 0 <= i < |range| => DayExtremes(range[i], res, read, dict).min)
  }

  /** Each row's `"max"` entry, where it has one. */
  function Highs<J>(range: seq<FeatureRow>, res: Routes.Resource, read: JsonReader<J>, dict: DictReader<J>): (r: seq<Option<J>>)
    ensures |r| == |range| && forall i :: 0 <= i < |range| ==> r[i] == DayExtremes(range[i], res, read, dict).max
  {
    seq(|range|, i requires 0 <= i < |range| => DayExtremes(range[i], res, read, dict).max)
  }

  /** `max_candidates`: the `"max"` entries of the rows, in row order. */
  function MaxCandidates<J>(range: seq<FeatureRow>, res: Routes.Resource, read: JsonReader<J>, dict: DictReader<J>): seq<J> {
    Present(Highs(range, res, read, dict))
  }

  /** `min(candidates, key=lambda x: x["value"])`, or None for no candidates: a candidate of least value, the first among ties. */
  function Least<J>(cands: seq<J>, valueOf: ValueOf<J>): (r: Option<J>)
    ensures r.None? <==> |cands| == 0
    ensures r.Some? ==> exists i :: 0 <= i < |cands| && cands[i] == r.value
                          && (forall j :: 0 <= j < |cands| ==> valueOf(cands[i]) <= valueOf(cands[j]))
                          && (forall j :: 0 <= j < i ==> valueOf(cands[j]) > valueOf(cands[i]))
  {
    match FirstMin(cands, valueOf)
    case None => None
    case Some(i) => Some(cands[i])
  }

  /** `max(candidates, key=lambda x: x["value"])`, or None for no candidates: a candidate of greatest value, the first among ties. */
  function Greatest<J>(cands: seq<J>, valueOf: ValueOf<J>): (r: Option<J>)
    ensures r.None? <==> |cands| == 0
    ensures r.Some? ==> exists i :: 0 <= i < |cands| && cands[i] == r.value
                          && (forall j :: 0 <= j < |cands| ==> valueOf(cands[j]) <= valueOf(cands[i]))
                          && (forall j :: 0 <= j < i ==> valueOf(cands[j]) < valueOf(cands[i]))
  {
    match FirstMax(cands, valueOf)
    case None => None
    case Some(i) => Some(cands[i])
  }

  datatype ResourceSpan<J> = ResourceSpan(mean: real, total: real, std: real, minResource: Option<J>, maxResource: Option<J>)

  /**
   * The cpu, storage and users range report: the mean of the daily means and
   * of the daily spreads to two decimals, the summed totals, and the least and
   * greatest of the days' candidates.
   */
  function SpanOf<J>(range: seq<FeatureRow>, res: Routes.Resource, read: JsonReader<J>, dict: DictReader<J>, valueOf: ValueOf<J>): (s: ResourceSpan<J>)
    ensures Near(s.mean, Mean(MeanColumn(range, res)))
    ensures s.total == Sum(TotalColumn(range, res))
    ensures Near(s.std, Mean(StdColumn(range, res)))
  {
    ResourceSpan(
      Round2(Mean(MeanColumn(range, res))),
      Sum(TotalColumn(range, res)),
      Round2(Mean(StdColumn(range, res))),
      Least(MinCandidates(range, res, read, dict), valueOf),
      Greatest(MaxCandidates(range, res, read, dict), valueOf))
  }

  /** Every extreme the range report names is one some day of the range carries. */
  lemma SpanFromDays<J>(range: seq<FeatureRow>, res: Routes.Resource, read: JsonReader<J>, dict: DictReader<J>, valueOf: ValueOf<J>)
    ensures var s := SpanOf(range, res, read, dict, valueOf);
            (s.minResource.Some? ==> exists i :: 0 <= i < |range| && DayExtremes(range[i], res, read, dict).min == s.minResource)
            && (s.maxResource.Some? ==> exists i :: 0 <= i < |range| && DayExtremes(range[i], res, read, dict).max == s.maxResource)
  {
    SpanMinFromDays(range, res, read, dict, valueOf);
    SpanMaxFromDays(range, res, read, dict, valueOf);
  }

  lemma SpanMinFromDays<J>(range: seq<FeatureRow>, res: Routes.Resource, read: JsonReader<J>, dict: DictReader<J>, valueOf: ValueOf<J>)
    ensures var s := SpanOf(range, res, read, dict, valueOf);
            s.minResource.Some? ==> exists i :: 0 <= i < |range| && DayExtremes(range[i], res, read, dict).min == s.minResource
  {
    assert SpanOf(range, res, read, dict, valueOf).minResource == Least(MinCandidates(range, res, read, dict), valueOf);
    LeastFromRows(range, res, read, dict, valueOf);
  }

  lemma LeastFromRows<J>(range: seq<FeatureRow>, res: Routes.Resource, read: JsonReader<J>, dict: DictReader<J>, valueOf: ValueOf<J>)
    ensures var r := Least(MinCandidates(range, res, read, dict), valueOf);
            r.Some? ==> exists i :: 0 <= i < |range| && DayExtremes(range[i], res, read, dict).min == r
  {
    var lows := Lows(range, res, read, dict);
    if Least(Present(lows), valueOf).Some? {
      var i := LeastFromEntries(lows, valueOf);
      assert lows[i] == DayExtremes(range[i], res, read, dict).min;
    }
  }

  lemma SpanMaxFromDays<J>(range: seq<FeatureRow>, res: Routes.Resource, read: JsonReader<J>, dict: DictReader<J>, valueOf: ValueOf<J>)
    ensures var s := SpanOf(range, res, read, dict, valueOf);
            s.maxResource.Some? ==> exists i :: 0 <= i < |range| && DayExtremes(range[i], res, read, dict).max == s.maxResource
  {
    assert SpanOf(range, res, read, dict, valueOf).maxResource == Greatest(MaxCandidates(range, res, read, dict), valueOf);
    GreatestFromRows(range, res, read, dict, valueOf);
  }

  lemma GreatestFromRows<J>(range: seq<FeatureRow>, res: Routes.Resource, read: JsonReader<J>, dict: DictReader<J>, valueOf: ValueOf<J>)
    ensures var r := Greatest(MaxCandidates(range, res, read, dict), valueOf);
            r.Some? ==> exists i :: 0 <= i < |range| && DayExtremes(range[i], res, read, dict).max == r
  {
    var highs := Highs(range, res, read, dict);
    if Greatest(Present(highs), valueOf).Some? {
      var i := GreatestFromEntries(highs, valueOf);
      assert highs[i] == DayExtremes(range[i], res, read, dict).max;
    }
  }

  /** The least of the present entries is itself one of the entries: the one at `i`. */
  lemma LeastFromEntries<J>(entries: seq<Option<J>>, valueOf: ValueOf<J>) returns (i: nat)
    requires Least(Present(entries), valueOf).Some?
    ensures i < |entries| && entries[i] == Least(Present(entries), valueOf)
  {
    var cands := Present(entries);
    var k :| 0 <= k < |cands| && cands[k] == Least(cands, valueOf).value;
    i :| 0 <= i < |entries| && entries[i] == Some(cands[k]);
  }

  /** The greatest of the present entries is itself one of the entries: the one at `i`. */
  lemma GreatestFromEntries<J>(entries: seq<Option<J>>, valueOf: ValueOf<J>) returns (i: nat)
    requires Greatest(Present(entries), valueOf).Some?
    ensures i < |entries| && entries[i] == Greatest(Present(entries), valueOf)
  {
    var cands := Present(entries);
    var k :| 0 <= k < |cands| && cands[k] == Greatest(cands, valueOf).value;
    i :| 0 <= i < |entries| && entries[i] == Some(cands[k]);
  }

  /** A date and the value that peaked on it. */
  datatype Peak = Peak(date: Date, value: real)

  datatype EconomySpan = EconomySpan(economicIndexMean: real, cloudMarketDemandMean: real, peakCloudDemand: Peak, peakCloudIndex: Peak)

  function Demand(x: FeatureRow): real { x.cloudMarketDemand }
  function IndexOf(x: FeatureRow): real { x.economicIndex }

  /**
   * The economy range report: the means of both indicators to two decimals,
   * and for each the first row where it is greatest (`idxmax`).
   */
  function EconomyOf(range: seq<FeatureRow>): (e: EconomySpan)
    requires |range| > 0
    ensures Near(e.economicIndexMean, Mean(Project(range, IndexOf)))
    ensures Near(e.cloudMarketDemandMean, Mean(Project(range, Demand)))
    ensures exists i :: 0 <= i < |range| && e.peakCloudDemand == Peak(range[i].date, range[i].cloudMarketDemand)
              && (forall j :: 0 <= j < |range| ==> range[j].cloudMarketDemand <= range[i].cloudMarketDemand)
              && (forall j :: 0 <= j < i ==> range[j].cloudMarketDemand < range[i].cloudMarketDemand)
    ensures exists i :: 0 <= i < |range| && e.peakCloudIndex == Peak(range[i].date, range[i].economicIndex)
              && (forall j :: 0 <= j < |range| ==> range[j].economicIndex <= range[i].economicIndex)
              && (forall j :: 0 <= j < i ==> range[j].economicIndex < range[i].economicIndex)
  {
    var d := FirstMax(range, Demand).value;
    var x := FirstMax(range, IndexOf).value;
    EconomySpan(Round2(Mean(Project(range, IndexOf))), Round2(Mean(Project(range, Demand))),
                Peak(range[d].date, range[d].cloudMarketDemand), Peak(range[x].date, range[x].economicIndex))
  }

  /** What a full-range route answers with. */
  datatype RangeReport<J> =
    | ResourceRange(span: ResourceSpan<J>)
    | EconomyRange(economy: EconomySpan)
    | SummaryRange(uniqueRegions: real, totalRecords: real, resourcesPerRegion: seq<Field<J>>)

  function Resource(report: Routes.Report): Option<Routes.Resource> {
    match report
    case CpuReport => Some(Routes.Cpu)
    case StorageReport => Some(Routes.Storage)
    case UsersReport => Some(Routes.Users)
    case _ => None
  }

  function UniqueRegions(x: FeatureRow): real { x.uniqueRegions }
  function TotalRecords(x: FeatureRow): real { x.totalRecords }

  /** The summary range report: the summed counts and each day's parsed `resources_per_region`, in row order. */
  function SummaryOf<J>(range: seq<FeatureRow>, read: JsonReader<J>): (r: RangeReport<J>)
    ensures r.SummaryRange? && |r.resourcesPerRegion| == |range|
    ensures r.uniqueRegions == Sum(Project(range, UniqueRegions))
    ensures r.totalRecords == Sum(Project(range, TotalRecords))
    ensures forall i :: 0 <= i < |range| ==> r.resourcesPerRegion[i] == ParseJsonField(range[i].resourcesPerRegion, read)
  {
    SummaryRange(Sum(Project(range, UniqueRegions)), Sum(Project(range, TotalRecords)),
                 seq(|range|, i requires 0 <= i < |range| => ParseJsonField(range[i].resourcesPerRegion, read)))
  }

  /**
   * `cpu_by_range`, `storage_by_range`, `users_by_range`, `economy_by_range`
   * and `summary_by_range`: the 404 when the range is incomplete, otherwise the
   * report of the route's kind over the range's rows.
   */
  function ByRange<J>(rows: seq<FeatureRow>, report: Routes.Report, dateText: string, daysText: string,
                      read: JsonReader<J>, dict: DictReader<J>, valueOf: ValueOf<J>): (r: Result<RangeReport<J>, Failure>)
    ensures r.Err? <==> GetRangeData(rows, dateText, daysText).None?
    ensures r.Err? ==> r.error == RangeError(dateText, daysText)
    ensures r.Ok? ==> var range := GetRangeData(rows, dateText, daysText).value;
                      match report
                      case EconomyReport => r.value == EconomyRange(EconomyOf(range))
                      case SummaryReport => r.value == SummaryOf(range, read)
                      case _ => r.value == ResourceRange(SpanOf(range, Resource(report).value, read, dict, valueOf))
  {
    match GetRangeData(rows, dateText, daysText)
    case None => Err(RangeError(dateText, daysText))
    case Some(range) =>
      match report
      case EconomyReport => Ok(EconomyRange(EconomyOf(range)))
      case SummaryReport => Ok(SummaryOf(range, read))
      case _ => Ok(ResourceRange(SpanOf(range, Resource(report).value, read, dict, valueOf)))
  }

  // ---------------------------------------------------------------------------
  // holidays_by_range

  datatype Utilization = Utilization(weekdayAvg: real, holidayAvg: real, percentChange: Option<real>)

  datatype HolidayReport = HolidayReport(numHolidays: nat, holidayDates: seq<Date>, utilization: map<Routes.Resource, Utilization>)

  /**
   * `percent_change`: the change from the weekday to the holiday average in
   * percent, to two decimals; None for a zero weekday average.
   */
  function PercentChange(holidayAvg: real, weekdayAvg: real): (p: Option<real>)
    ensures p.None? <==> weekdayAvg == 0.0
    ensures p.Some? ==> Near(p.value, (holidayAvg - weekdayAvg) / weekdayAvg * 100.0)
  {
    if weekdayAvg == 0.0 then None
    else Some(Round2((holidayAvg - weekdayAvg) / weekdayAvg * 100.0))
  }

  predicate IsHoliday(x: FeatureRow) { x.holiday == 1 }
  predicate IsWeekday(x: FeatureRow) { x.holiday == 0 }

  function UtilizationOf(range: seq<FeatureRow>, res: Routes.Resource): (u: Utilization)
    ensures u.holidayAvg == Mean(Project(Where(range, IsHoliday), x => MeanOf(x, res)))
    ensures u.weekdayAvg == Mean(Project(Where(range, IsWeekday), x => MeanOf(x, res)))
    ensures u.percentChange.None? <==> u.weekdayAvg == 0.0
    ensures u.percentChange.Some? ==> Near(u.percentChange.value, (u.holidayAvg - u.weekdayAvg) / u.weekdayAvg * 100.0)
  {
    var h := Mean(Project(Where(range, IsHoliday), x => MeanOf(x, res)));
    var w := Mean(Project(Where(range, IsWeekday), x => MeanOf(x, res)));
    Utilization(w, h, PercentChange(h, w))
  }

  /**
   * The holiday report of a range: the number and the dates of the rows whose
   * `holiday` flag is 1, and for each resource the averages over the rows
   * flagged 1 and over those flagged 0.
   */
  function HolidaysOf(range: seq<FeatureRow>): (h: HolidayReport)
    ensures h.numHolidays == |h.holidayDates| == |Where(range, IsHoliday)|
    ensures forall i :: 0 <= i < |h.holidayDates| ==> h.holidayDates[i] == Where(range, IsHoliday)[i].date
    ensures forall d :: d in h.holidayDates <==> HolidayOn(range, d)
    ensures h.utilization.Keys == {Routes.Cpu, Routes.Storage, Routes.Users}
    ensures forall res :: res in h.utilization ==> h.utilization[res] == UtilizationOf(range, res)
  {
    var holidays := Where(range, IsHoliday);
    var ds := Dates(holidays);
    HolidayDatesHeld(range);
    HolidayReport(|holidays|, ds, UtilizationByResource(range))
  }

  /** `resource_utilization`: one entry per resource. */
  function UtilizationByResource(range: seq<FeatureRow>): (m: map<Routes.Resource, Utilization>)
    ensures m.Keys == {Routes.Cpu, Routes.Storage, Routes.Users}
    ensures forall res :: res in m ==> m[res] == UtilizationOf(range, res)
  {
    var m := map[Routes.Cpu := UtilizationOf(range, Routes.Cpu),
                 Routes.Storage := UtilizationOf(range, Routes.Storage),
                 Routes.Users := UtilizationOf(range, Routes.Users)];
    m
  }

  /** Some row of the range is flagged a holiday and dated `d`. */
  predicate HolidayOn(range: seq<FeatureRow>, d: Date) {
    exists x :: x in range && x.holiday == 1 && x.date == d
  }

  lemma HolidayDatesHeld(range: seq<FeatureRow>)
    ensures forall d :: d in Dates(Where(range, IsHoliday)) <==> HolidayOn(range, d)
  {
    var holidays := Where(range, IsHoliday);
    DatesHeld(holidays);
    forall d
      ensures HasDay(holidays, d) <==> HolidayOn(range, d)
    {
      if HasDay(holidays, d) {
        var x :| x in holidays && x.date == d;
        assert x in range && x.holiday == 1;
      }
      if HolidayOn(range, d) {
        var x :| x in range && x.holiday == 1 && x.date == d;
        assert x in holidays;
      }
    }
  }

  /** When every flag is 0 or 1, the holidays and the weekdays share out the range. */
  lemma HolidayPartition(range: seq<FeatureRow>)
    requires forall x :: x in range ==> x.holiday == 0 || x.holiday == 1
    ensures HolidaysOf(range).numHolidays + |Where(range, IsWeekday)| == |range|
  {
    WhereSplit(range, IsHoliday, IsWeekday);
  }

  /** `holidays_by_range`: the 404 when the range is incomplete, otherwise its holiday report. */
  function Holidays(rows: seq<FeatureRow>, dateText: string, daysText: string): (r: Result<HolidayReport, Failure>)
    ensures r.Err? <==> GetRangeData(rows, dateText, daysText).None?
    ensures r.Err? ==> r.error == RangeError(dateText, daysText)
    ensures r.Ok? ==> r.value == HolidaysOf(GetRangeData(rows, dateText, daysText).value)
  {
    match GetRangeData(rows, dateText, daysText)
    case None => Err(RangeError(dateText, daysText))
    case Some(range) => Ok(HolidaysOf(range))
  }

  // ---------------------------------------------------------------------------
  // Rolling averages

  function DateOrder(x: FeatureRow): real { Ord(x.date) as real }

  /** `df.sort_values("date")`: the table reordered by date (order among equal dates unspecified). */
  function DateOrdered(rows: seq<FeatureRow>): (s: seq<FeatureRow>)
    ensures |s| == |rows| && multiset(s) == multiset(rows)
    ensures SortedBy(s, DateOrder)
  {
    var s := SortBy(rows, DateOrder);
    PermutationFacts(s, rows);
    s
  }

  /** The number of complete windows of width `w` over `n` values. */
  function WindowCount(n: nat, w: nat): nat {
    if 1 <= w <= n then n - w + 1 else 0
  }

  /** The `w` values of a resource's mean ending at position `k + w - 1`. */
  function Window(sorted: seq<FeatureRow>, res: Routes.Resource, k: nat, w: nat): (s: seq<real>)
    requires k + w <= |sorted|
    ensures |s| == w && forall j :: 0 <= j < w ==> s[j] == MeanOf(sorted[k + j], res)
  {
    seq(w, j requires 0 <= j < w => MeanOf(sorted[k + j], res))
  }

  datatype RollingSeries = RollingSeries(dates: seq<Date>, values: seq<real>, averages: seq<real>)

  /**
   * `cpu_with_rolling`, `storage_with_rolling`, `users_with_rolling`: the 404
   * for an empty table; otherwise, over the table sorted by date, one point per
   * complete window of `window` rows, holding the date and mean of the window's
   * last row and the average over the window, both numbers to two decimals.
   */
  function Rolling(rows: seq<FeatureRow>, res: Routes.Resource, window: nat): (r: Result<RollingSeries, Failure>)
    ensures r.Err? <==> |rows| == 0
    ensures r.Err? ==> r.error == Failure(404, "No data available")
    ensures r.Ok? ==> |r.value.dates| == WindowCount(|rows|, window)
                      && |r.value.values| == |r.value.dates| && |r.value.averages| == |r.value.dates|
    ensures r.Ok? ==> var sorted := DateOrdered(rows);
                      forall k :: 0 <= k < |r.value.dates| ==>
                        k + window <= |sorted|
                        && r.value.dates[k] == sorted[k + window - 1].date
                        && Near(r.value.values[k], MeanOf(sorted[k + window - 1], res))
                        && Near(r.value.averages[k], Mean(Window(sorted, res, k, window)))
  {
    if |rows| == 0 then Err(Failure(404, "No data available"))
    else
      var sorted := DateOrdered(rows);
      var count := WindowCount(|rows|, window);
      if count == 0 then Ok(RollingSeries([], [], []))
      else
        Ok(RollingSeries(seq(count, k requires 0 <= k < count => sorted[k + window - 1].date),
                         WindowValues(sorted, res, window, count), WindowAverages(sorted, res, window, count)))
  }

  /** The mean of each window's last row, to two decimals. */
  function WindowValues(sorted: seq<FeatureRow>, res: Routes.Resource, window: nat, count: nat): (s: seq<real>)
    requires window >= 1 && count + window - 1 <= |sorted|
    ensures |s| == count && forall k :: 0 <= k < count ==> Near(s[k], MeanOf(sorted[k + window - 1], res))
  {
    var s := seq(count, k requires 0 <= k < count => Round2(MeanOf(sorted[k + window - 1], res)));
    assert forall k | 0 <= k < count :: Near(s[k], MeanOf(sorted[k + window - 1], res)) by {
      forall k | 0 <= k < count
        ensures Near(s[k], MeanOf(sorted[k + window - 1], res))
      {
        var x := MeanOf(sorted[k + window - 1], res);
        assert s[k] == Round2(x);
      }
    }
    s
  }

  /** The average over each window, to two decimals. */
  function WindowAverages(sorted: seq<FeatureRow>, res: Routes.Resource, window: nat, count: nat): (s: seq<real>)
    requires window >= 1 && count + window - 1 <= |sorted|
    ensures |s| == count && forall k :: 0 <= k < count ==> Near(s[k], Mean(Window(sorted, res, k, window)))
  {
    var s := seq(count, k requires 0 <= k < count => Round2(Mean(Window(sorted, res, k, window))));
    assert forall k :: 0 <= k < count ==> s[k] == Round2(Mean(Window(sorted, res, k, window))) && Near(Round2(Mean(Window(sorted, res, k, window))), Mean(Window(sorted, res, k, window)));
    s
  }

  /**
   * The series runs forward in time, and each average lies between the least
   * and greatest value of its window, once both are rounded the same way.
   */
  lemma RollingShape(rows: seq<FeatureRow>, res: Routes.Resource, window: nat, k: nat, lo: real, hi: real)
    requires Rolling(rows, res, window).Ok?
    requires k < |Rolling(rows, res, window).value.dates|
    requires forall j :: k <= j < k + window ==> lo <= MeanOf(DateOrdered(rows)[j], res) <= hi
    ensures var s := Rolling(rows, res, window).value;
            (k + 1 < |s.dates| ==> Ord(s.dates[k]) <= Ord(s.dates[k + 1]))
            && Round2(lo) <= s.averages[k] <= Round2(hi)
  {
    var sorted := DateOrdered(rows);
    var win := Window(sorted, res, k, window);
    MeanBetween(win, lo, hi);
    Round2Monotone(lo, Mean(win));
    Round2Monotone(Mean(win), hi);
    if k + 1 < WindowCount(|rows|, window) {
      assert DateOrder(sorted[k + window - 1]) <= DateOrder(sorted[k + window]);
    }
  }

  // ---------------------------------------------------------------------------
  // Insights

  datatype RangeColumns = RangeColumns(dates: seq<Date>, mean: seq<real>, total: seq<real>, std: seq<real>)

  /**
   * `format_range_response`: the range's dates and one resource's means,
   * totals and spreads, row by row, the numbers to two decimals.
   */
  function FormatRange(range: seq<FeatureRow>, res: Routes.Resource): (c: RangeColumns)
    ensures |c.dates| == |range| && |c.mean| == |range| && |c.total| == |range| && |c.std| == |range|
    ensures forall i :: 0 <= i < |range| ==>
              c.dates[i] == range[i].date && Near(c.mean[i], MeanOf(range[i], res))
              && Near(c.total[i], TotalOf(range[i], res)) && Near(c.std[i], StdOf(range[i], res))
  {
    RangeColumns(Dates(range), Rounds(MeanColumn(range, res)), Rounds(TotalColumn(range, res)),
                 Rounds(StdColumn(range, res)))
  }

  /** `.round(2)` on a column: every value to two decimals. */
  function Rounds(s: seq<real>): (r: seq<real>)
    ensures |r| == |s| && forall i :: 0 <= i < |s| ==> r[i] == Round2(s[i])
  {
    seq(|s|, i requires 0 <= i < |s| => Round2(s[i]))
  }

  /** The resource word of the insights routes' 404. */
  function Label(res: Routes.Resource): string {
    match res
    case Cpu => "CPU"
    case Storage => "Storage"
    case Users => "Users"
  }

  /** `cpu_insights`, `storage_insights`, `users_insights`. */
  function Insights(rows: seq<FeatureRow>, res: Routes.Resource, dateText: string, daysText: string): (r: Result<RangeColumns, Failure>)
    ensures r.Err? <==> GetRangeData(rows, dateText, daysText).None?
    ensures r.Err? ==> r.error == Failure(404, "No " + Label(res) + " data for range starting " + dateText + " with " + daysText + " days")
    ensures r.Ok? ==> r.value == FormatRange(GetRangeData(rows, dateText, daysText).value, res)
  {
    match GetRangeData(rows, dateText, daysText)
    case None => Err(Failure(404, "No " + Label(res) + " data for range starting " + dateText + " with " + daysText + " days"))
    case Some(range) => Ok(FormatRange(range, res))
  }

  // ---------------------------------------------------------------------------
  // Per-date reports

  predicate OnDay(x: FeatureRow, d: Date) { x.date == d }

  /** `get_row(date)`: the first row dated on the requested day. */
  function GetRow(rows: seq<FeatureRow>, dateText: string): (r: Option<FeatureRow>)
    ensures r.None? <==> ParseDateKey(dateText).None?
                         || forall i :: 0 <= i < |rows| ==> rows[i].date != ParseDateKey(dateText).value
    ensures r.Some? ==> Some(r.value.date) == ParseDateKey(dateText)
                        && (exists i :: 0 <= i < |rows| && rows[i] == r.value
                              && forall j :: 0 <= j < i ==> rows[j].date != r.value.date)
  {
    match ParseDateKey(dateText)
    case None => None
    case Some(d) =>
      match FirstWhere(rows, x => OnDay(x, d))
      case None => None
      case Some(i) => Some(rows[i])
  }

  /** What a per-date route shows as `min_resource` or `max_resource`. */
  datatype Shown<J> = Entry(entry: Option<J>) | WholeField(field: Field<J>)

  datatype DateReport<J> =
    | ResourceDay(mean: real, total: real, std: real, minResource: Shown<J>, maxResource: Shown<J>)
    | EconomyDay(economicIndex: real, cloudMarketDemand: real, holiday: int)
    | SummaryDay(uniqueRegions: real, totalRecords: real, resourcesPerRegion: Field<J>)

  /**
   * A per-date resource report: the row's three statistics and, when the
   * extremes field parses to a dictionary, its `"min"` and `"max"` entries;
   * otherwise the parsed field itself for both.
   */
  function DayOf<J>(row: FeatureRow, res: Routes.Resource, read: JsonReader<J>, dict: DictReader<J>): (d: DateReport<J>)
    ensures d.ResourceDay? && d.mean == MeanOf(row, res) && d.total == TotalOf(row, res) && d.std == StdOf(row, res)
    ensures var f := ParseJsonField(Columns(row, res).extremes, read);
            if f.Decoded? && dict(f.json).Some?
            then d.minResource == Entry(dict(f.json).value.min) && d.maxResource == Entry(dict(f.json).value.max)
            else d.minResource == WholeField(f) && d.maxResource == WholeField(f)
  {
    var f := ParseJsonField(Columns(row, res).extremes, read);
    var c := Columns(row, res);
    var (lo, hi) := if f.Decoded? && dict(f.json).Some?
                    then (Entry(dict(f.json).value.min), Entry(dict(f.json).value.max))
                    else (WholeField(f), WholeField(f));
    ResourceDay(c.mean, c.total, c.std, lo, hi)
  }

  /** `cpu_by_date` ... `summary_by_date`: "Date not found" unless a row carries the date. */
  function OnDate<J>(rows: seq<FeatureRow>, report: Routes.Report, dateText: string,
                     read: JsonReader<J>, dict: DictReader<J>): (r: Result<DateReport<J>, Failure>)
    ensures r.Err? <==> GetRow(rows, dateText).None?
    ensures r.Err? ==> r.error == Failure(404, "Date not found")
    ensures r.Ok? ==> var row := GetRow(rows, dateText).value;
                      match report
                      case EconomyReport => r.value == EconomyDay(row.economicIndex, row.cloudMarketDemand, row.holiday)
                      case SummaryReport =>
                        r.value == SummaryDay(row.uniqueRegions, row.totalRecords, ParseJsonField(row.resourcesPerRegion, read))
                      case _ => r.value == DayOf(row, Resource(report).value, read, dict)
  {
    match GetRow(rows, dateText)
    case None => Err(Failure(404, "Date not found"))
    case Some(row) =>
      match report
      case EconomyReport => Ok(EconomyDay(row.economicIndex, row.cloudMarketDemand, row.holiday))
      case SummaryReport => Ok(SummaryDay(row.uniqueRegions, row.totalRecords, ParseJsonField(row.resourcesPerRegion, read)))
      case _ => Ok(DayOf(row, Resource(report).value, read, dict))
  }

  // ---------------------------------------------------------------------------
  // Dates and months

  /** `get_all_dates`: each date of the table once, in the order it first appears. */
  function AllDates(rows: seq<FeatureRow>): (ds: seq<Date>)
    ensures forall d :: d in ds <==> exists i :: 0 <= i < |rows| && rows[i].date == d
    ensures Distinct(ds)
    ensures forall a, b :: 0 <= a < b < |ds| ==>
              exists i :: 0 <= i < |rows| && rows[i].date == ds[a] && forall j :: 0 <= j <= i ==> rows[j].date != ds[b]
  {
    var all := Dates(rows);
    assert forall d :: d in all <==> exists i :: 0 <= i < |rows| && rows[i].date == d;
    var ds := Unique(all);
    forall a, b | 0 <= a < b < |ds|
      ensures exists i :: 0 <= i < |rows| && rows[i].date == ds[a] && forall j :: 0 <= j <= i ==> rows[j].date != ds[b]
    {
      var i, k := FirstIndex(all, ds[a]), FirstIndex(all, ds[b]);
      assert rows[i].date == ds[a];
      forall j | 0 <= j <= i ensures rows[j].date != ds[b] {
        assert all[j] == rows[j].date;
      }
    }
    ds
  }

  /** A monthly period: `to_period("M")`. */
  datatype Month = Month(year: int, month: int)

  function MonthOf(d: Date): Month { Month(d.year, d.month) }

  function MonthOrder(m: Month): real { (m.year * 12 + m.month) as real }

  /** The `"YYYY-MM"` text of a period. */
  function MonthText(m: Month): string
    requires 1 <= m.year <= 9999 && 1 <= m.month <= 12
  {
    MonthKey(Date(m.year, m.month, 1))
  }

  function Months(rows: seq<FeatureRow>): (ms: seq<Month>)
    ensures |ms| == |rows| && forall i :: 0 <= i < |rows| ==> ms[i] == MonthOf(rows[i].date)
  {
    seq(|rows|, i requires 0 <= i < |rows| => MonthOf(rows[i].date))
  }

  /** Some row falls in the period. */
  predicate HasMonth(rows: seq<FeatureRow>, m: Month) {
    exists x :: x in rows && MonthOf(x.date) == m
  }

  /** `get_all_months`: each period of the table once, earliest first. */
  function AllMonths(rows: seq<FeatureRow>): (ms: seq<Month>)
    requires Loaded(rows)
    ensures forall m :: m in ms <==> HasMonth(rows, m)
    ensures forall i, j :: 0 <= i < j < |ms| ==> MonthOrder(ms[i]) < MonthOrder(ms[j])
  {
    var all := Months(rows);
    MonthsHeld(rows);
    var s := SortBy(Unique(all), MonthOrder);
    MonthsIncrease(all, s);
    s
  }

  lemma MonthsHeld(rows: seq<FeatureRow>)
    requires Loaded(rows)
    ensures forall m :: m in Months(rows) <==> HasMonth(rows, m)
    ensures forall m :: m in Months(rows) ==> 1 <= m.month <= 12
  {
    var all := Months(rows);
    forall m | m in all
      ensures HasMonth(rows, m) && 1 <= m.month <= 12
    {
      var i :| 0 <= i < |all| && all[i] == m;
      assert rows[i] in rows;
    }
    forall m | HasMonth(rows, m)
      ensures m in all
    {
      var x :| x in rows && MonthOf(x.date) == m;
      var i :| 0 <= i < |rows| && rows[i] == x;
      assert all[i] == m;
    }
  }

  lemma MonthsIncrease(all: seq<Month>, s: seq<Month>)
    requires forall m :: m in all ==> 1 <= m.month <= 12
    requires s == SortBy(Unique(all), MonthOrder)
    ensures forall m :: m in s <==> m in all
    ensures forall i, j :: 0 <= i < j < |s| ==> MonthOrder(s[i]) < MonthOrder(s[j])
  {
    var u := Unique(all);
    PermutationFacts(s, u);
    DistinctPermutation(s, u);
    forall i, j | 0 <= i < j < |s|
      ensures MonthOrder(s[i]) < MonthOrder(s[j])
    {
      assert s[i] in all && s[j] in all;
      if MonthOrder(s[i]) == MonthOrder(s[j]) {
        MonthOrderInjective(s[i], s[j]);
      }
    }
  }

  lemma MonthOrderInjective(a: Month, b: Month)
    requires 1 <= a.month <= 12 && 1 <= b.month <= 12 && MonthOrder(a) == MonthOrder(b)
    ensures a == b
  {
  }

  predicate InMonth(x: FeatureRow, monthText: string) {
    DateOk(x.date) && MonthKey(x.date) == monthText
  }

  /** Some row dated `d` falls in the month named `monthText`. */
  predicate DayInMonth(rows: seq<FeatureRow>, d: Date, monthText: string) {
    exists x :: x in rows && x.date == d && InMonth(x, monthText)
  }

  function DateOrd(d: Date): real { Ord(d) as real }

  /**
   * `get_dates_in_month(month)`: a 404 when no row falls in the month,
   * otherwise each date of the month once, earliest first.
   */
  function DatesInMonth(rows: seq<FeatureRow>, monthText: string): (r: Result<seq<Date>, Failure>)
    requires Loaded(rows)
    ensures r.Err? <==> forall x :: x in rows ==> !InMonth(x, monthText)
    ensures r.Err? ==> r.error == Failure(404, "No data found for month " + monthText)
    ensures r.Ok? ==> forall d :: d in r.value <==> DayInMonth(rows, d, monthText)
    ensures r.Ok? ==> forall i, j :: 0 <= i < j < |r.value| ==> Ord(r.value[i]) < Ord(r.value[j])
  {
    var hits := Where(rows, x => InMonth(x, monthText));
    if |hits| == 0 then
      Err(Failure(404, "No data found for month " + monthText))
    else
      assert hits[0] in hits;
      var s := SortBy(Unique(Dates(hits)), DateOrd);
      MonthDays(rows, monthText, hits);
      DatesIncrease(Dates(hits), s);
      Ok(s)
  }

  lemma MonthDays(rows: seq<FeatureRow>, monthText: string, hits: seq<FeatureRow>)
    requires hits == Where(rows, x => InMonth(x, monthText))
    ensures forall d :: d in Dates(hits) <==> DayInMonth(rows, d, monthText)
    ensures forall d :: d in Dates(hits) ==> Valid(d)
  {
    DatesHeld(hits);
    forall d
      ensures HasDay(hits, d) <==> DayInMonth(rows, d, monthText)
    {
      if HasDay(hits, d) {
        var x :| x in hits && x.date == d;
        assert x in rows && InMonth(x, monthText);
      }
      if DayInMonth(rows, d, monthText) {
        var x :| x in rows && x.date == d && InMonth(x, monthText);
        assert x in hits;
      }
    }
  }

  lemma DatesIncrease(ds: seq<Date>, s: seq<Date>)
    requires forall d :: d in ds ==> Valid(d)
    requires s == SortBy(Unique(ds), DateOrd)
    ensures forall d :: d in s <==> d in ds
    ensures forall i, j :: 0 <= i < j < |s| ==> Ord(s[i]) < Ord(s[j])
  {
    var u := Unique(ds);
    PermutationFacts(s, u);
    DistinctPermutation(s, u);
    forall i, j | 0 <= i < j < |s|
      ensures Ord(s[i]) < Ord(s[j])
    {
      assert s[i] in ds && s[j] in ds;
      if Ord(s[i]) == Ord(s[j]) {
        OrdInjective(s[i], s[j]);
      }
    }
  }

  /** Every month `get_all_months` lists has dates: its text passed to `get_dates_in_month` does not give a 404. */
  lemma MonthsHaveDates(rows: seq<FeatureRow>, m: Month)
    requires Loaded(rows) && m in AllMonths(rows)
    ensures 1 <= m.year <= 9999 && 1 <= m.month <= 12
    ensures DatesInMonth(rows, MonthText(m)).Ok?
  {
    var x :| x in rows && MonthOf(x.date) == m;
    assert MonthKey(x.date) == MonthText(m);
    assert InMonth(x, MonthText(m));
  }
}
