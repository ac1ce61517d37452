/**
 * The model-metrics blueprint: per-target lookups in the two score tables,
 * `top_models_summary.csv` (one best model per target) and
 * `model_comparison.csv` (every candidate model per target).
 */
module ModelScores {
  import opened Wrappers
  import opened Sorting
  import Frames

  /** A row of the summary table; `hyperparameters` is read only when the table has that column. */
  datatype TopRow = TopRow(
    target: string, bestModel: string,
    testMae: real, testRmse: real, testMape: real, testBias: real,
    hyperparameters: string)

  datatype TopTable = TopTable(rows: seq<TopRow>, hasHyperparameters: bool)

  /** A row of the comparison table, with the columns the routes read or the page shows. */
  datatype ComparisonRow = ComparisonRow(target: string, model: string, valMae: real, testMae: real)

  /** A JSON answer, or the route's 404 with its error message. */
  datatype Reply<T> = Found(body: T) | NotFound(error: string)

  /** The body of the best-model route. */
  datatype BestModelInfo = BestModelInfo(
    model: string, mae: real, rmse: real, mape: real, bias: real, hyperparameters: string)

  /** Index of the first row for `target`, if any. */
  function FirstFor(rows: seq<TopRow>, target: string): (r: Option<nat>)
    ensures r.None? <==> forall i :: 0 <= i < |rows| ==> rows[i].target != target
    ensures r.Some? ==> r.value < |rows| && rows[r.value].target == target
    ensures r.Some? ==> forall i :: 0 <= i < r.value ==> rows[i].target != target
    decreases |rows|
  {
    if |rows| == 0 then None
    else if rows[0].target == target then Some(0)
    else
      match FirstFor(rows[1..], target)
      case None => None
      case Some(k) => Some(k + 1)
  }

  /** `get_best_model_by_target`. */
  function BestModel(table: TopTable, target: string): (r: Reply<BestModelInfo>)
    ensures r.NotFound? <==> forall i :: 0 <= i < |table.rows| ==> table.rows[i].target != target
    ensures r.NotFound? ==> r.error == "No model found for target '" + target + "'"
    ensures r.Found? ==>
              exists i :: 0 <= i < |table.rows| && table.rows[i].target == target
                && (forall j :: 0 <= j < i ==> table.rows[j].target != target)
                && r.body.model == table.rows[i].bestModel
                && r.body.mae == table.rows[i].testMae
                && r.body.rmse == table.rows[i].testRmse
                && r.body.mape == table.rows[i].testMape
                && r.body.bias == table.rows[i].testBias
                && (table.hasHyperparameters ==> r.body.hyperparameters == table.rows[i].hyperparameters)
    ensures r.Found? && !table.hasHyperparameters ==> r.body.hyperparameters == "N/A"
  {
    match FirstFor(table.rows, target)
    case None => NotFound("No model found for target '" + target + "'")
    case Some(i) =>
      var row := table.rows[i];
      Found(BestModelInfo(row.bestModel, row.testMae, row.testRmse, row.testMape, row.testBias,
                          if table.hasHyperparameters then row.hyperparameters else "N/A"))
  }

  /** The comparison rows for `target`, in file order. */
  function RowsFor(rows: seq<ComparisonRow>, target: string): (r: seq<ComparisonRow>)
    ensures forall i :: 0 <= i < |r| ==> r[i].target == target && r[i] in rows
    ensures |r| <= |rows|
  {
    var kept := Frames.Where(rows, (y: ComparisonRow) => y.target == target);
    assert forall i :: 0 <= i < |kept| ==> kept[i] in kept;
    kept
  }

  /** Every row for the target is kept. */
  lemma RowsForComplete(rows: seq<ComparisonRow>, target: string, i: nat)
    requires i < |rows| && rows[i].target == target
    ensures rows[i] in RowsFor(rows, target)
  {
    assert rows[i] in rows;
  }

  /**
   * Filtering keeps file order and repeated rows: it distributes over
   * concatenation, and keeps a single row exactly when it is the target's.
   */
  lemma RowsForAppend(a: seq<ComparisonRow>, b: seq<ComparisonRow>, x: ComparisonRow, target: string)
    ensures RowsFor(a + b, target) == RowsFor(a, target) + RowsFor(b, target)
    ensures RowsFor([x], target) == if x.target == target then [x] else []
  {
    Frames.WhereAppend(a, b, (y: ComparisonRow) => y.target == target);
    Frames.WhereSnoc([], x, (y: ComparisonRow) => y.target == target);
    assert [] + [x] == [x];
  }

  /** `get_all_models_by_target`. */
  function AllModels(rows: seq<ComparisonRow>, target: string): (r: Reply<seq<ComparisonRow>>)
    ensures r.NotFound? <==> forall i :: 0 <= i < |rows| ==> rows[i].target != target
    ensures r.NotFound? ==> r.error == "No models found for target '" + target + "'"
    ensures r.Found? ==> r.body == RowsFor(rows, target)
  {
    var matching := RowsFor(rows, target);
    if |matching| == 0 then
      assert forall i :: 0 <= i < |rows| ==> rows[i].target != target by {
        forall i | 0 <= i < |rows| && rows[i].target == target
          ensures false
        {
          RowsForComplete(rows, target, i);
        }
      }
      NotFound("No models found for target '" + target + "'")
    else
      var i :| 0 <= i < |rows| && rows[i] == matching[0];
      Found(matching)
  }

  function ValMae(row: ComparisonRow): real {
    row.valMae
  }

  /** `get_top3_models_by_target`: the matching rows sorted by `Val_MAE`, first three. */
  function Top3(rows: seq<ComparisonRow>, target: string): (r: Reply<seq<ComparisonRow>>)
    ensures r.NotFound? <==> forall i :: 0 <= i < |rows| ==> rows[i].target != target
    ensures r.NotFound? ==> r.error == "No models found for target '" + target + "'"
    ensures r.Found? ==> 1 <= |r.body| <= 3
    ensures r.Found? ==> |r.body| == if |RowsFor(rows, target)| < 3 then |RowsFor(rows, target)| else 3
    ensures r.Found? ==> forall i :: 0 <= i < |r.body| ==> r.body[i].target == target && r.body[i] in rows
    ensures r.Found? ==> SortedBy(r.body, ValMae)
    ensures r.Found? ==> multiset(r.body) <= multiset(RowsFor(rows, target))
    ensures r.Found? ==>
              forall x, y :: x in multiset(RowsFor(rows, target)) - multiset(r.body) && y in r.body ==>
                y.valMae <= x.valMae
  {
    match AllModels(rows, target)
    case NotFound(e) => NotFound(e)
    case Found(matching) =>
      var top := Best3(matching);
      forall i | 0 <= i < |top|
        ensures top[i].target == target && top[i] in rows
      {
        assert top[i] in multiset(matching);
      }
      Found(top)
  }

  /** The first three of `rows` in `Val_MAE` order. */
  function Best3(rows: seq<ComparisonRow>): (top: seq<ComparisonRow>)
    ensures |top| == if |rows| < 3 then |rows| else 3
    ensures SortedBy(top, ValMae)
    ensures multiset(top) <= multiset(rows)
    ensures forall x, y :: x in multiset(rows) - multiset(top) && y in top ==> y.valMae <= x.valMae
  {
    var sorted := SortBy(rows, ValMae);
    PermutationFacts(sorted, rows);
    var k := if |sorted| < 3 then |sorted| else 3;
    TakeBest(sorted, k);
    sorted[..k]
  }

  /** A prefix of a sorted sequence, and what is left: nothing left is smaller than anything taken. */
  lemma TakeBest(sorted: seq<ComparisonRow>, k: nat)
    requires SortedBy(sorted, ValMae) && k <= |sorted|
    ensures SortedBy(sorted[..k], ValMae)
    ensures multiset(sorted[..k]) <= multiset(sorted)
    ensures forall x, y :: x in multiset(sorted) - multiset(sorted[..k]) && y in sorted[..k] ==> y.valMae <= x.valMae
  {
    MultisetSplit(sorted, k);
    forall x, y | x in multiset(sorted[k..]) && y in sorted[..k]
      ensures y.valMae <= x.valMae
    {
      var i :| 0 <= i < k && sorted[i] == y;
      assert x in sorted[k..];
      var j :| k <= j < |sorted| && sorted[j] == x;
      assert ValMae(sorted[i]) <= ValMae(sorted[j]);
    }
  }

  lemma MultisetSplit<T>(s: seq<T>, k: nat)
    requires k <= |s|
    ensures multiset(s[..k]) <= multiset(s)
    ensures multiset(s) - multiset(s[..k]) == multiset(s[k..])
  {
    assert s == s[..k] + s[k..];
  }
}
