/**
 * The model-metrics bar chart: four metrics, each shown or hidden by a
 * checkbox, drawn in the order they were made visible, each in its own
 * colour.
 */
module MetricsChart {
  import Frames

  /** `allMetrics`, in checkbox order. */
  const AllMetrics: seq<string> := ["mae", "rmse", "mape", "bias"]

  /** Every metric starts visible. */
  function InitialVisible(): (v: seq<string>)
    ensures v == AllMetrics && Frames.Distinct(v)
  {
    AllMetrics
  }

  function Other(m: string): string -> bool {
    (x: string) => x != m
  }

  /**
   * `toggleMetric`: a visible metric is filtered out, the others keeping
   * their order; a hidden one is added at the end.
   */
  function Toggle(visible: seq<string>, m: string): (r: seq<string>)
    ensures forall x :: x in r <==> (x in visible <==> x != m)
    ensures m !in visible ==> r == visible + [m]
    ensures Frames.Distinct(visible) && m in visible ==>
              exists i :: 0 <= i < |visible| && visible[i] == m && r == visible[..i] + visible[i + 1..]
  {
    if m in visible then
      if Frames.Distinct(visible) then DropVisible(visible, m); Frames.Where(visible, Other(m))
      else Frames.Where(visible, Other(m))
    else visible + [m]
  }

  /** Filtering a metric out of a list that holds it once removes just that position. */
  lemma DropVisible(visible: seq<string>, m: string)
    requires Frames.Distinct(visible) && m in visible
    ensures exists i :: 0 <= i < |visible| && visible[i] == m
                        && Frames.Where(visible, Other(m)) == visible[..i] + visible[i + 1..]
  {
    var i := Frames.FirstIndex(visible, m);
    var pre, post := visible[..i], visible[i + 1..];
    assert visible == pre + [m] + post;
    KeptAround(visible, m, i, pre, post);
    Frames.WhereDropsOne(pre, m, post, Other(m));
  }

  /** Around the only position of `m`, every metric is one the filter keeps. */
  lemma KeptAround(visible: seq<string>, m: string, i: nat, pre: seq<string>, post: seq<string>)
    requires Frames.Distinct(visible) && i < |visible| && visible[i] == m
    requires pre == visible[..i] && post == visible[i + 1..]
    ensures forall j :: 0 <= j < |pre| ==> Other(m)(pre[j])
    ensures forall j :: 0 <= j < |post| ==> Other(m)(post[j])
  {
    forall j | 0 <= j < |pre| ensures pre[j] != m {
      assert pre[j] == visible[j];
    }
    forall j | 0 <= j < |post| ensures post[j] != m {
      assert post[j] == visible[i + 1 + j];
    }
  }

  /** Toggling never repeats a metric. */
  lemma ToggleDistinct(visible: seq<string>, m: string)
    requires Frames.Distinct(visible)
    ensures Frames.Distinct(Toggle(visible, m))
  {
    if m in visible {
      Frames.WhereDistinct(visible, Other(m));
    }
  }

  /**
   * Toggling twice shows the same metrics; when the metric was hidden, the
   * list is exactly as before.
   */
  lemma ToggleTwice(visible: seq<string>, m: string)
    ensures forall x :: x in Toggle(Toggle(visible, m), m) <==> x in visible
    ensures m !in visible ==> Toggle(Toggle(visible, m), m) == visible
  {
    if m !in visible {
      Frames.WhereSnoc(visible, m, Other(m));
      Frames.WhereAll(visible, Other(m));
    }
  }

  /** The checkboxes only ever toggle the four metrics, so the visible list stays within them. */
  lemma ToggleWithin(visible: seq<string>, m: string)
    requires forall x :: x in visible ==> x in AllMetrics
    requires m in AllMetrics
    ensures forall x :: x in Toggle(visible, m) ==> x in AllMetrics
  {
  }

  /** `toUpperCase()` on ASCII letters. */
  function Upper(s: string): (r: string)
    ensures |r| == |s|
    ensures forall i :: 0 <= i < |s| ==> r[i] == if 'a' <= s[i] <= 'z' then (s[i] as int - 32) as char else s[i]
  {
    seq(|s|, i requires 0 <= i < |s| => if 'a' <= s[i] <= 'z' then (s[i] as int - 32) as char else s[i])
  }

  /** The bar labels, one per visible metric, in the same order. */
  function Labels(visible: seq<string>): (r: seq<string>)
    ensures |r| == |visible| && forall i :: 0 <= i < |visible| ==> r[i] == Upper(visible[i])
  {
    seq(|visible|, i requires 0 <= i < |visible| => Upper(visible[i]))
  }

  /** The four labels read MAE, RMSE, MAPE and BIAS. */
  lemma AllLabels()
    ensures Labels(AllMetrics) == ["MAE", "RMSE", "MAPE", "BIAS"]
  {
    assert Upper("mae") == "MAE";
    assert Upper("rmse") == "RMSE";
    assert Upper("mape") == "MAPE";
    assert Upper("bias") == "BIAS";
  }

  /** A metric's bar colour; anything else is grey. */
  function Color(m: string): (c: string)
    ensures m !in AllMetrics <==> c == "#888888"
  {
    if m == "mae" then "#0088FE"
    else if m == "rmse" then "#00C49F"
    else if m == "mape" then "#FFBB28"
    else if m == "bias" then "#FF8042"
    else "#888888"
  }

  /** The four metrics have four different colours. */
  lemma ColorsDistinct()
    ensures forall i, j :: 0 <= i < j < |AllMetrics| ==> Color(AllMetrics[i]) != Color(AllMetrics[j])
  {
  }

  /** The dataset label: the given model name, or the record's own model name when none is given. */
  function DatasetLabel(modelName: string, model: string): (l: string)
    ensures modelName != "" ==> l == modelName
    ensures modelName == "" ==> l == model
  {
    if modelName != "" then modelName else model
  }

  /** The chart's data: the bar labels, the dataset's label, and per visible metric its value and its colour. */
  datatype Chart = Chart(labels: seq<string>, dataset: string, values: seq<real>, colors: seq<string>)

  /** `chartData`: one bar per visible metric, in the visible order, read from the metrics record `value`. */
  function ChartOf(visible: seq<string>, value: string -> real, modelName: string, model: string): (c: Chart)
    ensures |c.labels| == |visible| && |c.values| == |visible| && |c.colors| == |visible|
    ensures forall i :: 0 <= i < |visible| ==>
              c.labels[i] == Upper(visible[i]) && c.values[i] == value(visible[i]) && c.colors[i] == Color(visible[i])
    ensures c.dataset == DatasetLabel(modelName, model)
  {
    Chart(Labels(visible), DatasetLabel(modelName, model),
          seq(|visible|, i requires 0 <= i < |visible| => value(visible[i])),
          seq(|visible|, i requires 0 <= i < |visible| => Color(visible[i])))
  }

  /** Showing a hidden metric adds its bar, label and colour at the end of the chart. */
  lemma ToggleAddsBar(visible: seq<string>, m: string, value: string -> real, modelName: string, model: string)
    requires m !in visible
    ensures var c, c' := ChartOf(visible, value, modelName, model), ChartOf(Toggle(visible, m), value, modelName, model);
            && c'.labels == c.labels + [Upper(m)]
            && c'.values == c.values + [value(m)]
            && c'.colors == c.colors + [Color(m)]
            && c'.dataset == c.dataset
  {
  }

  /** Hiding a visible metric removes exactly its bar, label and colour, the others keeping their order. */
  lemma ToggleDropsBar(visible: seq<string>, m: string, value: string -> real, modelName: string, model: string)
    requires Frames.Distinct(visible) && m in visible
    ensures var c, c' := ChartOf(visible, value, modelName, model), ChartOf(Toggle(visible, m), value, modelName, model);
            exists i :: 0 <= i < |visible| && visible[i] == m
                        && c'.labels == c.labels[..i] + c.labels[i + 1..]
                        && c'.values == c.values[..i] + c.values[i + 1..]
                        && c'.colors == c.colors[..i] + c.colors[i + 1..]
  {
    var c, c' := ChartOf(visible, value, modelName, model), ChartOf(Toggle(visible, m), value, modelName, model);
    var i :| 0 <= i < |visible| && visible[i] == m && Toggle(visible, m) == visible[..i] + visible[i + 1..];
    var t := Toggle(visible, m);
    DropPosition(visible, t, i, c.labels, c'.labels, Upper);
    DropPosition(visible, t, i, c.values, c'.values, value);
    DropPosition(visible, t, i, c.colors, c'.colors, Color);
  }

  /** A list computed element-wise from `v` loses position `i` when `v` does. */
  lemma DropPosition<T, U>(v: seq<T>, t: seq<T>, i: nat, a: seq<U>, b: seq<U>, f: T -> U)
    requires i < |v| && t == v[..i] + v[i + 1..]
    requires |a| == |v| && forall k :: 0 <= k < |v| ==> a[k] == f(v[k])
    requires |b| == |t| && forall k :: 0 <= k < |t| ==> b[k] == f(t[k])
    ensures b == a[..i] + a[i + 1..]
  {
    forall k | 0 <= k < |b|
      ensures b[k] == (a[..i] + a[i + 1..])[k]
    {
      if k < i {
        assert t[k] == v[k];
      } else {
        assert t[k] == v[k + 1];
      }
    }
  }
}
