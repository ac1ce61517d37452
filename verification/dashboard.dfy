/**
 * The dashboard layout: a fixed table from each view to the ordered list of
 * queries it needs, a loader that runs them all and re-keys the results into
 * one payload, and the controls (view, resource, rolling window, lock) with
 * the rule for when a change reloads.
 *
 * The shared `endpoints` object and its `fetchData` (the general service
 * file) are not part of this model: the object is a parameter, given as its
 * entries in key order, and its fetch is a parameter too. The rolling
 * queries go through the feature service file.
 */
module Dashboard {
  import opened Wrappers
  import Http
  import Routes
  import FeatureApi
  import Frames

  datatype View = Overview | Resources | Regions

  /** The resource the overview and the regions view show: "CPU" or "Storage". */
  datatype Shown = CpuShown | StorageShown

  /** An entry of the view table: `endpoints.<name>`, or a rolling generator applied to the window. */
  datatype Query = Static(name: string) | Generator(resource: Routes.Resource)

  /** The `endpoints.<name>` entries of each view's list in `viewApiMap`, in order. */
  function StaticNames(view: View): seq<string> {
    match view
    case Overview =>
      ["usageTrends", "insights", "topRegions", "peakDemand", "peakDemandStorage",
       "topRegionsStorage", "insightsStorage", "usageTrendsStorage", "peakEfficiency",
       "topRegionsEfficiency"]
    case Resources => ["monthlyTrends", "holidayImpact", "holidayEfficiencyImpact"]
    case Regions =>
      ["regionalComparison", "topRegions", "topRegionsStorage", "regionalComparisonEfficiency",
       "topRegionsEfficiency"]
  }

  /** The rolling generators that close a view's list: only the overview has them. */
  function RollQueries(view: View): seq<Query> {
    if view == Overview then [Generator(Routes.Cpu), Generator(Routes.Storage), Generator(Routes.Users)] else []
  }

  function Statics(names: seq<string>): (qs: seq<Query>)
    ensures |qs| == |names| && forall i :: 0 <= i < |names| ==> qs[i] == Static(names[i])
  {
    seq(|names|, i requires 0 <= i < |names| => Static(names[i]))
  }

  /** `viewApiMap`: the static entries, then the rolling generators. */
  function Queries(view: View): seq<Query> {
    Statics(StaticNames(view)) + RollQueries(view)
  }

  /** How many entries of a list are rolling generators. */
  function Generators(qs: seq<Query>): (n: nat)
    ensures n <= |qs|
    ensures n == 0 <==> forall i :: 0 <= i < |qs| ==> qs[i].Static?
    decreases |qs|
  {
    if |qs| == 0 then 0
    else (if qs[|qs| - 1].Generator? then 1 else 0) + Generators(qs[..|qs| - 1])
  }

  /** The overview runs 13 queries (10 static, then the 3 rolling ones), resources 3 and regions 5. */
  lemma QueryCounts()
    ensures |Queries(Overview)| == 13 && Generators(Queries(Overview)) == 3
    ensures forall i :: 0 <= i < 10 ==> Queries(Overview)[i].Static?
    ensures |Queries(Resources)| == 3 && Generators(Queries(Resources)) == 0
    ensures |Queries(Regions)| == 5 && Generators(Queries(Regions)) == 0
  {
    var o := Queries(Overview);
    var head := Statics(StaticNames(Overview));
    assert o[..12] == head + [o[10], o[11]];
    assert o[..12][..11] == o[..11] == head + [o[10]];
    assert o[..11][..10] == head;
    assert Queries(Resources) == Statics(StaticNames(Resources));
    assert Queries(Regions) == Statics(StaticNames(Regions));
  }

  /** The entries of the `endpoints` object, in key order: each key with its path. */
  type Catalog = seq<(string, string)>

  /** An object's keys are distinct. */
  predicate IsObject(cat: Catalog) {
    forall i, j :: 0 <= i < j < |cat| ==> cat[i].0 != cat[j].0
  }

  /** `endpoints.<name>`: the path under that key, or nothing (`undefined`). */
  function Lookup(cat: Catalog, name: string): (v: Option<string>)
    ensures v.None? <==> forall i :: 0 <= i < |cat| ==> cat[i].0 != name
    ensures v.Some? ==> exists i :: 0 <= i < |cat| && cat[i] == (name, v.value)
  {
    match Frames.FirstWhere(cat, (e: (string, string)) => e.0 == name)
    case None => None
    case Some(i) => Some(cat[i].1)
  }

  /**
   * The payload key of a static query:
   * `Object.keys(endpoints).find(k => endpoints[k] === api)`, the first key
   * holding the query's path; a query with no path gets the key "undefined".
   */
  function StaticKey(cat: Catalog, value: Option<string>): (k: string)
    ensures value.None? ==> k == "undefined"
  {
    if value.None? then "undefined"
    else
      match Frames.FirstWhere(cat, (e: (string, string)) => e.1 == value.value)
      case None => "undefined"
      case Some(i) => cat[i].0
  }

  /** A rolling generator's key names its resource whatever the window: `cpuRoll`, `storageRoll`, `usersRoll`. */
  function RollKey(r: Routes.Resource): (k: string)
    ensures k == r.Name() + "Roll"
  {
    match r
    case Cpu => "cpuRoll"
    case Storage => "storageRoll"
    case Users => "usersRoll"
  }

  function Key(cat: Catalog, q: Query): string {
    match q
    case Static(name) => StaticKey(cat, Lookup(cat, name))
    case Generator(r) => RollKey(r)
  }

  /** A key no other entry's path shadows: no earlier key holds the same path. */
  predicate Unshadowed(cat: Catalog, i: nat)
    requires i < |cat|
  {
    forall j :: 0 <= j < i ==> cat[j].1 != cat[i].1
  }

  /**
   * A static query is keyed by its own name exactly when the object has the
   * name and no earlier key holds the same path: with a shared path, the
   * first key wins.
   */
  lemma StaticKeyIsName(cat: Catalog, name: string)
    requires IsObject(cat) && name != "undefined"
    ensures StaticKey(cat, Lookup(cat, name)) == name <==>
              exists i :: 0 <= i < |cat| && cat[i].0 == name && Unshadowed(cat, i)
  {
    var found := Frames.FirstWhere(cat, (e: (string, string)) => e.0 == name);
    if found.Some? {
      var i := found.value;
      var v := cat[i].1;
      var j := Frames.FirstWhere(cat, (e: (string, string)) => e.1 == v).value;
      assert j <= i;
      if Unshadowed(cat, i) {
        assert j == i;
      } else {
        assert cat[j].0 != name;
      }
      forall i' | 0 <= i' < |cat| && cat[i'].0 == name
        ensures i' == i
      {
      }
    }
  }

  /** A catalogue in which every name of the view table is present and unshadowed. */
  predicate Keyed(cat: Catalog) {
    && IsObject(cat)
    && forall v: View, q :: q in Queries(v) && q.Static? ==>
         exists i :: 0 <= i < |cat| && cat[i].0 == q.name && Unshadowed(cat, i)
  }

  /** The payload's keys, one per query position. */
  function Keys(cat: Catalog, qs: seq<Query>): (ks: seq<string>)
    ensures |ks| == |qs|
    ensures forall i :: 0 <= i < |qs| ==> ks[i] == Key(cat, qs[i])
  {
    seq(|qs|, i requires 0 <= i < |qs| => Key(cat, qs[i]))
  }

  /** The dashboard's state. `data` starts as the empty object. */
  datatype State<J> = State(
    data: map<string, J>, loading: bool, view: View, shown: Shown, window: int, locked: bool)

  /** The dashboard as it mounts: overview, CPU, a 7-day window, locked. */
  function Initial<J>(): (s: State<J>)
    ensures s.data == map[] && s.loading && s.view == Overview && s.shown == CpuShown
    ensures s.window == 7 && s.locked
  {
    State(map[], true, Overview, CpuShown, 7, true)
  }

  /** How the general service file fetches a static query's path (or `undefined`). */
  type StaticFetch<!J> = Option<string> -> Result<J, Http.FetchError>

  /** One query's fetch: a static path as it stands, a generator applied to the current window. */
  function Run<J>(cat: Catalog, fetch: StaticFetch<J>, net: Http.Network<J>, window: int, q: Query)
    : Result<J, Http.FetchError>
  {
    match q
    case Static(name) => fetch(Lookup(cat, name))
    case Generator(r) => FeatureApi.Fetch(net, FeatureApi.Rolling(r, window))
  }

  /** `Promise.all`: every value when all queries succeed, a failure when any fails. */
  function All<J>(rs: seq<Result<J, Http.FetchError>>): (r: Option<seq<J>>)
    ensures r.Some? <==> forall i :: 0 <= i < |rs| ==> rs[i].Ok?
    ensures r.Some? ==> |r.value| == |rs| && forall i :: 0 <= i < |rs| ==> r.value[i] == rs[i].value
  {
    if forall i :: 0 <= i < |rs| ==> rs[i].Ok? then
      Some(seq(|rs|, i requires 0 <= i < |rs| && rs[i].Ok? => rs[i].value))
    else None
  }

  function Results<J>(cat: Catalog, fetch: StaticFetch<J>, net: Http.Network<J>, window: int, qs: seq<Query>)
    : (rs: seq<Result<J, Http.FetchError>>)
    ensures |rs| == |qs| && forall i :: 0 <= i < |qs| ==> rs[i] == Run(cat, fetch, net, window, qs[i])
  {
    seq(|qs|, i requires 0 <= i < |qs| => Run(cat, fetch, net, window, qs[i]))
  }

  /**
   * `loadData(view)`: when every query of the view succeeds, the data becomes
   * the new payload, keyed as the queries are, and nothing of the old data is
   * kept; when any fails, the data stays. Loading ends either way.
   */
  function Load<J>(s: State<J>, cat: Catalog, fetch: StaticFetch<J>, net: Http.Network<J>): (t: State<J>)
    ensures !t.loading
    ensures t.view == s.view && t.shown == s.shown && t.window == s.window && t.locked == s.locked
    ensures var rs := Results(cat, fetch, net, s.window, Queries(s.view));
            && ((forall i :: 0 <= i < |rs| ==> rs[i].Ok?) ==>
                  && (forall k :: k in t.data <==> k in Keys(cat, Queries(s.view)))
                  && t.data == Frames.Payload(Keys(cat, Queries(s.view)), All(rs).value))
            && ((exists i :: 0 <= i < |rs| && rs[i].Err?) ==> t.data == s.data)
  {
    var qs := Queries(s.view);
    match All(Results(cat, fetch, net, s.window, qs))
    case Some(values) => s.(data := Frames.Payload(Keys(cat, qs), values), loading := false)
    case None => s.(loading := false)
  }

  /** A control change. */
  datatype Control = PickView(view: View) | PickShown(shown: Shown) | EditWindow(window: int) | ToggleLock

  /** The window input is disabled while locked; the lock button flips the lock. */
  function Apply<J>(s: State<J>, c: Control): (t: State<J>)
    ensures t.data == s.data && t.loading == s.loading
    ensures c.EditWindow? ==> t.window == (if s.locked then s.window else c.window)
    ensures !c.EditWindow? ==> t.window == s.window
    ensures t.locked == (if c.ToggleLock? then !s.locked else s.locked)
    ensures t.view == (if c.PickView? then c.view else s.view)
    ensures t.shown == (if c.PickShown? then c.shown else s.shown)
  {
    match c
    case PickView(v) => s.(view := v)
    case PickShown(r) => s.(shown := r)
    case EditWindow(w) => if s.locked then s else s.(window := w)
    case ToggleLock => s.(locked := !s.locked)
  }

  /** The effect's dependency list: the view and the lock. */
  predicate Reloads<J>(s: State<J>, t: State<J>) {
    s.view != t.view || s.locked != t.locked
  }

  /**
   * Only a new view or a lock toggle reloads: a resource pick or a window edit
   * never does, so a new window takes effect at the next lock toggle.
   */
  lemma ReloadControls<J>(s: State<J>, c: Control)
    ensures Reloads(s, Apply(s, c)) <==> c.ToggleLock? || (c.PickView? && c.view != s.view)
  {
  }

  /** Unlocking, editing and locking again reloads with the edited window. */
  lemma EditThenLock<J>(s: State<J>, w: int)
    requires s.locked
    ensures var t := Apply(Apply(Apply(s, ToggleLock), EditWindow(w)), ToggleLock);
            Reloads(Apply(Apply(s, ToggleLock), EditWindow(w)), t) && t.locked && t.window == w
  {
  }

  /** The payload keys each view's charts read, for the resource shown. */
  function ChartKeys(view: View, shown: Shown): seq<string> {
    match view
    case Overview =>
      if shown == CpuShown then ["insights", "usageTrends", "cpuRoll", "usersRoll", "topRegions", "peakDemand"]
      else ["insightsStorage", "usageTrendsStorage", "storageRoll", "topRegionsStorage",
            "peakDemandStorage", "peakEfficiency", "topRegionsEfficiency"]
    case Resources => ["monthlyTrends", "holidayImpact", "holidayEfficiencyImpact"]
    case Regions => ["regionalComparison", TopRegionsKey(shown), "topRegionsEfficiency", "regionalComparisonEfficiency"]
  }

  /** The regions view's Top Regions chart: `topRegions` for CPU, `topRegionsStorage` otherwise. */
  function TopRegionsKey(shown: Shown): string {
    if shown == CpuShown then "topRegions" else "topRegionsStorage"
  }

  /** The key a query is meant to fill: its name, or its rolling key. */
  function Name(q: Query): string {
    match q
    case Static(name) => name
    case Generator(r) => RollKey(r)
  }

  function Names(qs: seq<Query>): (ns: seq<string>)
    ensures |ns| == |qs| && forall i :: 0 <= i < |qs| ==> ns[i] == Name(qs[i])
  {
    seq(|qs|, i requires 0 <= i < |qs| => Name(qs[i]))
  }

  /** With a catalogue that keys every table name to itself, each query's key is the name it is meant to fill. */
  lemma KeyedNames(cat: Catalog, view: View)
    requires Keyed(cat)
    ensures Keys(cat, Queries(view)) == Names(Queries(view))
  {
    var qs := Queries(view);
    forall i | 0 <= i < |qs|
      ensures Key(cat, qs[i]) == Name(qs[i])
    {
      if qs[i].Static? {
        assert qs[i] in Queries(view);
        assert qs[i].name != "undefined" by { TableNames(view, i); }
        StaticKeyIsName(cat, qs[i].name);
      }
    }
  }

  /** No table name is the key of a missing path. */
  lemma TableNames(view: View, i: nat)
    requires i < |Queries(view)|
    ensures Name(Queries(view)[i]) != "undefined"
  {
    TableNameList(view);
  }

  /** The keys each view's table is meant to fill, in order. */
  function NameList(view: View): seq<string> {
    StaticNames(view) + (if view == Overview then ["cpuRoll", "storageRoll", "usersRoll"] else [])
  }

  lemma TableNameList(view: View)
    ensures Names(Queries(view)) == NameList(view)
    ensures "undefined" !in NameList(view)
  {
    var statics := StaticNames(view);
    var qs, ns := Queries(view), NameList(view);
    assert |qs| == |ns|;
    forall i | 0 <= i < |qs|
      ensures Name(qs[i]) == ns[i]
    {
      if i < |statics| {
        assert qs[i] == Static(statics[i]);
      }
    }
    StaticsDefined(view);
    assert ns == statics + ns[|statics|..];
  }

  /** No static entry of the table is called `undefined`. */
  lemma StaticsDefined(view: View)
    ensures "undefined" !in StaticNames(view)
  {
    var statics := StaticNames(view);
    forall i | 0 <= i < |statics|
      ensures statics[i] != "undefined"
    {
      assert |statics[i]| != 9;
    }
  }

  /** Every chart of a view reads a key its table fills. */
  lemma ChartNames(view: View, shown: Shown)
    ensures forall k :: k in ChartKeys(view, shown) ==> k in Names(Queries(view))
  {
    TableNameList(view);
  }

  /**
   * With a catalogue that keys every table name to itself, each chart of the
   * view on screen finds its data in a successful load of that view.
   */
  lemma ChartsFed<J>(s: State<J>, cat: Catalog, fetch: StaticFetch<J>, net: Http.Network<J>)
    requires Keyed(cat)
    requires forall i :: 0 <= i < |Queries(s.view)| ==> Run(cat, fetch, net, s.window, Queries(s.view)[i]).Ok?
    ensures forall k :: k in ChartKeys(s.view, s.shown) ==> k in Load(s, cat, fetch, net).data
  {
    KeyedNames(cat, s.view);
    ChartNames(s.view, s.shown);
  }
}
