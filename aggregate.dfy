/** What the two bar-chart scripts share before they plot: the per-algorithm
    reduction of every sample log to group maxima and means, `round_to_zero`,
    `save_aggregated_csv` (one table per metric, built by outer merges on the
    group key), and the execution-time table. */
module Aggregate {
  import opened Base
  import opened Csv
  import opened Frames
  import opened GroupBy
  import opened Reduction

  /** `int(x)` on a float: truncation toward zero. */
  function Trunc(x: real): (r: int)
    ensures 0.0 <= x ==> r as real <= x < r as real + 1.0
    ensures x < 0.0 ==> r as real - 1.0 < x <= r as real
  {
    if x >= 0.0 then x.Floor else -((-x).Floor)
  }

  /** Truncation keeps order. */
  lemma TruncMonotone(x: real, y: real)
    requires x <= y
    ensures Trunc(x) <= Trunc(y)
  {
    if x < 0.0 <= y {
      assert Trunc(x) <= 0 <= Trunc(y);
    }
  }

  /** A whole number truncates to itself. */
  lemma TruncWhole(n: int)
    ensures Trunc(n as real) == n
  {
  }

  const NaNError: string := "ValueError: cannot convert float NaN to integer"

  /** `round_to_zero(value)`: `int` of a NaN raises `ValueError`. */
  function RoundToZero(v: Value): (r: Result<int, string>)
    ensures r.Success? <==> v.Some?
    ensures r.Success? ==> r.value == Trunc(v.value)
  {
    match v
    case None => Failure(NaNError)
    case Some(x) => Success(Trunc(x))
  }

  /** A data frame keyed by its first column: the column names in order, and per
      key the cells that are not NaN. */
  datatype Table = Table(columns: seq<string>, cells: map<real, map<string, int>>)

  /** `pd.DataFrame()`. */
  const NoTable: Table := Table([], map[])

  /** `DataFrame.empty`: no columns or no rows. */
  predicate Empty(t: Table) {
    |t.columns| == 0 || |t.cells| == 0
  }

  function MaxColumn(algorithm: string, metric: string): string {
    algorithm + "_max_" + metric
  }

  function MeanColumn(algorithm: string, metric: string): string {
    algorithm + "_mean_" + metric
  }

  /** Column names of different algorithms, or of the maximum and the mean, never
      coincide. */
  lemma ColumnsDiffer(a: string, b: string, metric: string)
    ensures MaxColumn(a, metric) == MaxColumn(b, metric) ==> a == b
    ensures MeanColumn(a, metric) == MeanColumn(b, metric) ==> a == b
    ensures MaxColumn(a, metric) != MeanColumn(b, metric)
  {
    if MaxColumn(a, metric) == MaxColumn(b, metric) {
      assert MaxColumn(a, metric)[..|a|] == a;
      assert MaxColumn(b, metric)[..|b|] == b;
    }
    if MeanColumn(a, metric) == MeanColumn(b, metric) {
      assert MeanColumn(a, metric)[..|a|] == a;
      assert MeanColumn(b, metric)[..|b|] == b;
    }
    var x, y := MaxColumn(a, metric), MeanColumn(b, metric);
    if |x| == |y| {
      assert x[|x| - |metric| - 2] == 'x';
      assert y[|y| - |metric| - 2] == 'n';
    }
  }

  /** No group of the maximum or of the mean is NaN. */
  predicate Truncatable(maxima: Grouped, means: Grouped) {
    forall k :: k in maxima ==> k in means && maxima[k].Some? && means[k].Some?
  }

  /** The group keys plus `offset`. */
  function Shifted(groups: Grouped, offset: real): (r: set<real>)
    ensures forall x :: x in r <==> x - offset in groups
  {
    set k | k in groups :: k + offset
  }

  /** One row of a `combined` frame, without its key. */
  function Pair(algorithm: string, metric: string, maximum: int, mean: int): map<string, int> {
    map[MaxColumn(algorithm, metric) := maximum, MeanColumn(algorithm, metric) := mean]
  }

  /** The rows of a `combined` frame: per group key plus `offset`, the truncated
      maximum and mean. */
  function CombinedCells(algorithm: string, metric: string, maxima: Grouped, means: Grouped, offset: real)
    : (r: map<real, map<string, int>>)
    requires Truncatable(maxima, means)
    ensures forall x :: x in r <==> x - offset in maxima
    ensures forall x :: x in r ==>
      r[x] == Pair(algorithm, metric, Trunc(maxima[x - offset].value), Trunc(means[x - offset].value))
  {
    map x | x in Shifted(maxima, offset) ::
      Pair(algorithm, metric, Trunc(maxima[x - offset].value), Trunc(means[x - offset].value))
  }

  /** The `combined` frame of `save_aggregated_csv` for one algorithm: the group key
      plus `offset`, and the truncated maximum and mean. A group whose maximum or
      mean is NaN makes `round_to_zero` raise. */
  function Combined(key: string, algorithm: string, metric: string, maxima: Grouped, means: Grouped, offset: real)
    : (r: Result<Table, string>)
    requires maxima.Keys == means.Keys
    ensures r.Success? <==> Truncatable(maxima, means)
    ensures r.Success? ==>
      && r.value.columns == [key, MaxColumn(algorithm, metric), MeanColumn(algorithm, metric)]
      && r.value.cells == CombinedCells(algorithm, metric, maxima, means, offset)
  {
    if Truncatable(maxima, means) then
      Success(Table([key, MaxColumn(algorithm, metric), MeanColumn(algorithm, metric)],
                    CombinedCells(algorithm, metric, maxima, means, offset)))
    else
      Failure(NaNError)
  }

  /** The cells of a key, none when the table lacks it. */
  function RowOf(t: Table, k: real): map<string, int> {
    if k in t.cells then t.cells[k] else map[]
  }

  function DataColumns(columns: seq<string>): seq<string> {
    if columns == [] then [] else columns[1..]
  }

  /** `pd.merge(left, right, on=key, how='outer')`: the left columns and then the
      right ones but the key; every key of either side, NaN where a side lacks it. */
  function Merge(left: Table, right: Table): (r: Table)
    ensures r.columns == left.columns + DataColumns(right.columns)
    ensures r.cells.Keys == left.cells.Keys + right.cells.Keys
  {
    Table(left.columns + DataColumns(right.columns),
          map k | k in left.cells.Keys + right.cells.Keys :: RowOf(left, k) + RowOf(right, k))
  }

  /** One pass of the loop of `save_aggregated_csv`. */
  function Step(aggregated: Table, combined: Table): Table {
    if Empty(aggregated) then combined else Merge(aggregated, combined)
  }

  /** `aggregated_data` after the loop over the combined frames `ts`. */
  function Aggregated(ts: seq<Table>): Table {
    if ts == [] then NoTable else Step(Aggregated(ts[..|ts| - 1]), ts[|ts| - 1])
  }

  predicate HaveColumns(ts: seq<Table>) {
    forall i :: 0 <= i < |ts| ==> ts[i].columns != []
  }

  /** A pass of the loop keeps the keys it had and adds those of the combined frame. */
  lemma StepKeys(aggregated: Table, combined: Table)
    requires aggregated.columns != [] || aggregated.cells == map[]
    ensures Step(aggregated, combined).cells.Keys == aggregated.cells.Keys + combined.cells.Keys
    ensures combined.columns != [] ==> Step(aggregated, combined).columns != []
  {
  }

  /** The merged table has every key of every combined frame, and no other. */
  lemma {:induction false} AggregatedKeys(ts: seq<Table>)
    requires HaveColumns(ts)
    ensures ts != [] ==> Aggregated(ts).columns != []
    ensures forall k :: k in Aggregated(ts).cells <==> exists i :: 0 <= i < |ts| && k in ts[i].cells
  {
    if ts != [] {
      var n := |ts| - 1;
      var prefix := ts[..n];
      assert forall i :: 0 <= i < n ==> prefix[i] == ts[i];
      AggregatedKeys(prefix);
      StepKeys(Aggregated(prefix), ts[n]);
      forall k | k in Aggregated(ts).cells ensures exists i :: 0 <= i < |ts| && k in ts[i].cells {
        if k !in ts[n].cells {
          var i :| 0 <= i < n && k in prefix[i].cells;
          assert k in ts[i].cells;
        }
      }
      forall k, i | 0 <= i < |ts| && k in ts[i].cells ensures k in Aggregated(ts).cells {
        if i < n {
          assert k in prefix[i].cells;
        }
      }
    }
  }

  /** Frames without rows only ever replace one another. */
  lemma {:induction false} AggregatedOfEmpty(ts: seq<Table>)
    requires forall i :: 0 <= i < |ts| ==> ts[i].cells == map[]
    ensures Aggregated(ts).cells == map[]
  {
    if ts != [] {
      var prefix := ts[..|ts| - 1];
      assert forall i :: 0 <= i < |prefix| ==> prefix[i] == ts[i];
      AggregatedOfEmpty(prefix);
    }
  }

  /** The data columns of the combined frames, in order. */
  function AllDataColumns(ts: seq<Table>): seq<string> {
    if ts == [] then [] else AllDataColumns(ts[..|ts| - 1]) + DataColumns(ts[|ts| - 1].columns)
  }

  /** The merged table's columns are those of the first frame with a row and then
      the data columns of every later frame, in algorithm order: the columns of
      the frames without rows before it are lost, since each of them only replaced
      the empty frame. */
  lemma {:induction false} AggregatedColumns(ts: seq<Table>, f: nat, k: real)
    requires f < |ts| && k in ts[f].cells && ts[f].columns != []
    requires forall i :: 0 <= i < f ==> ts[i].cells == map[]
    ensures Aggregated(ts).columns == ts[f].columns + AllDataColumns(ts[f + 1..])
    ensures k in Aggregated(ts).cells
  {
    var prefix := ts[..|ts| - 1];
    if f == |ts| - 1 {
      assert forall i :: 0 <= i < |prefix| ==> prefix[i].cells == map[] by {
        assert forall i :: 0 <= i < |prefix| ==> prefix[i] == ts[i];
      }
      AggregatedOfEmpty(prefix);
      FirstRow(ts);
    } else {
      assert prefix[f] == ts[f];
      assert forall i :: 0 <= i < f ==> prefix[i].cells == map[] by {
        assert forall i :: 0 <= i < f ==> prefix[i] == ts[i];
      }
      AggregatedColumns(prefix, f, k);
      NextRow(ts, f, k);
    }
  }

  lemma FirstRow(ts: seq<Table>)
    requires ts != [] && Aggregated(ts[..|ts| - 1]).cells == map[]
    ensures Aggregated(ts).columns == ts[|ts| - 1].columns + AllDataColumns(ts[|ts|..])
    ensures Aggregated(ts).cells == ts[|ts| - 1].cells
  {
    assert Empty(Aggregated(ts[..|ts| - 1]));
    assert ts[|ts|..] == [];
    assert ts[|ts| - 1].columns + [] == ts[|ts| - 1].columns;
  }

  lemma NextRow(ts: seq<Table>, f: nat, k: real)
    requires f < |ts| - 1 && ts[f].columns != []
    requires Aggregated(ts[..|ts| - 1]).columns == ts[f].columns + AllDataColumns(ts[..|ts| - 1][f + 1..])
    requires k in Aggregated(ts[..|ts| - 1]).cells
    ensures Aggregated(ts).columns == ts[f].columns + AllDataColumns(ts[f + 1..])
    ensures k in Aggregated(ts).cells
  {
    var prefix := ts[..|ts| - 1];
    var last := ts[|ts| - 1];
    assert !Empty(Aggregated(prefix));
    assert Aggregated(ts).columns == Aggregated(prefix).columns + DataColumns(last.columns);
    assert k in Aggregated(ts).cells.Keys;
    AllDataColumnsTail(ts, f + 1);
    Associative(ts[f].columns, AllDataColumns(prefix[f + 1..]), DataColumns(last.columns));
  }

  lemma Associative(a: seq<string>, b: seq<string>, c: seq<string>)
    ensures (a + b) + c == a + (b + c)
  {
  }

  lemma AllDataColumnsTail(ts: seq<Table>, from: nat)
    requires from < |ts|
    ensures AllDataColumns(ts[from..]) == AllDataColumns(ts[..|ts| - 1][from..]) + DataColumns(ts[|ts| - 1].columns)
  {
    var rest := ts[from..];
    assert rest[..|rest| - 1] == ts[..|ts| - 1][from..];
    assert rest[|rest| - 1].columns == ts[|ts| - 1].columns;
  }

  /** `c` is a column of frame `i` alone. */
  predicate Exclusive(ts: seq<Table>, i: int, c: string) {
    forall j, k :: 0 <= j < |ts| && j != i && k in ts[j].cells ==> c !in ts[j].cells[k]
  }

  /** A cell of a combined frame whose column no other frame has survives the
      merges unchanged. */
  lemma {:induction false} AggregatedCell(ts: seq<Table>, i: int, k: real, c: string)
    requires HaveColumns(ts)
    requires 0 <= i < |ts| && k in ts[i].cells && c in ts[i].cells[k]
    requires Exclusive(ts, i, c)
    ensures k in Aggregated(ts).cells && c in Aggregated(ts).cells[k]
    ensures Aggregated(ts).cells[k][c] == ts[i].cells[k][c]
  {
    var prefix := ts[..|ts| - 1];
    var last := ts[|ts| - 1];
    assert HaveColumns(prefix) by {
      assert forall j :: 0 <= j < |prefix| ==> prefix[j] == ts[j];
    }
    if i < |ts| - 1 {
      assert prefix[i] == ts[i];
      assert Exclusive(prefix, i, c) by {
        assert forall j :: 0 <= j < |prefix| ==> prefix[j] == ts[j];
      }
      AggregatedCell(prefix, i, k, c);
      assert c !in RowOf(last, k);
    }
  }

  /** Every cell of the merged table comes from some combined frame. */
  lemma {:induction false} AggregatedCellsFrom(ts: seq<Table>, k: real, c: string)
    requires k in Aggregated(ts).cells && c in Aggregated(ts).cells[k]
    ensures exists i :: 0 <= i < |ts| && k in ts[i].cells && c in ts[i].cells[k]
  {
    var prefix := ts[..|ts| - 1];
    var last := ts[|ts| - 1];
    if !(k in last.cells && c in last.cells[k]) && !Empty(Aggregated(prefix)) {
      AggregatedCellsFrom(prefix, k, c);
      var i :| 0 <= i < |prefix| && k in prefix[i].cells && c in prefix[i].cells[k];
      assert prefix[i] == ts[i];
    }
  }

  /** No algorithm has a group whose maximum or mean is NaN. */
  predicate AllTruncatable(algorithms: seq<string>, maxDict: map<string, Reduced>, meanDict: map<string, Reduced>, metric: string)
    requires Holds(algorithms, maxDict, meanDict, metric)
  {
    forall i :: 0 <= i < |algorithms| ==> Truncatable(maxDict[algorithms[i]][metric], meanDict[algorithms[i]][metric])
  }

  /** The `combined` frames of `algorithms`, in order, when none of them raises. */
  function Tables(key: string, algorithms: seq<string>, maxDict: map<string, Reduced>, meanDict: map<string, Reduced>,
                  metric: string, metricName: string, offset: real): (ts: seq<Table>)
    requires Holds(algorithms, maxDict, meanDict, metric) && AllTruncatable(algorithms, maxDict, meanDict, metric)
    ensures |ts| == |algorithms|
  {
    seq(|algorithms|, i requires 0 <= i < |algorithms| =>
      assert algorithms[i] in algorithms;
      Combined(key, algorithms[i], metricName, maxDict[algorithms[i]][metric], meanDict[algorithms[i]][metric], offset).value)
  }

  /** `save_aggregated_csv(metric, metric_name)`, as a value: the merged table, or
      `round_to_zero`'s error when some algorithm has a NaN group (whichever
      algorithm raises first, the error is the same). */
  function Saved(key: string, algorithms: seq<string>, maxDict: map<string, Reduced>, meanDict: map<string, Reduced>,
                 metric: string, metricName: string, offset: real): Result<Table, string>
    requires Holds(algorithms, maxDict, meanDict, metric)
  {
    if AllTruncatable(algorithms, maxDict, meanDict, metric) then
      Success(Aggregated(Tables(key, algorithms, maxDict, meanDict, metric, metricName, offset)))
    else
      Failure(NaNError)
  }

  lemma HoldsPrefix(algorithms: seq<string>, maxDict: map<string, Reduced>, meanDict: map<string, Reduced>, metric: string, n: nat)
    requires n <= |algorithms| && Holds(algorithms, maxDict, meanDict, metric)
    ensures Holds(algorithms[..n], maxDict, meanDict, metric)
  {
    forall a | a in algorithms[..n] ensures a in algorithms {
      var j :| 0 <= j < n && algorithms[..n][j] == a;
      assert algorithms[j] == a;
    }
  }

  /** One more algorithm that does not raise adds its combined frame to the others. */
  lemma TablesNext(key: string, algorithms: seq<string>, maxDict: map<string, Reduced>, meanDict: map<string, Reduced>,
                   metric: string, metricName: string, offset: real, i: nat)
    requires i < |algorithms| && Holds(algorithms, maxDict, meanDict, metric)
    requires Holds(algorithms[..i], maxDict, meanDict, metric) && AllTruncatable(algorithms[..i], maxDict, meanDict, metric)
    requires Truncatable(maxDict[algorithms[i]][metric], meanDict[algorithms[i]][metric])
    ensures Holds(algorithms[..i + 1], maxDict, meanDict, metric) && AllTruncatable(algorithms[..i + 1], maxDict, meanDict, metric)
    ensures var a := algorithms[i];
      Tables(key, algorithms[..i + 1], maxDict, meanDict, metric, metricName, offset)
      == Tables(key, algorithms[..i], maxDict, meanDict, metric, metricName, offset)
         + [Combined(key, a, metricName, maxDict[a][metric], meanDict[a][metric], offset).value]
  {
    HoldsPrefix(algorithms, maxDict, meanDict, metric, i + 1);
    assert forall j :: 0 <= j < i ==> algorithms[..i + 1][j] == algorithms[..i][j];
  }

  lemma AggregatedSnoc(ts: seq<Table>, t: Table)
    ensures Aggregated(ts + [t]) == Step(Aggregated(ts), t)
  {
    assert (ts + [t])[..|ts|] == ts;
  }

  /** `save_aggregated_csv(metric, metric_name)`: the loop that starts from an empty
      frame, replaces it while it is empty and merges into it otherwise; it raises
      exactly when some algorithm has a group whose maximum or mean is NaN. */
  method SaveAggregated(key: string, algorithms: seq<string>, maxDict: map<string, Reduced>, meanDict: map<string, Reduced>,
                        metric: string, metricName: string, offset: real)
    returns (r: Result<Table, string>)
    requires Holds(algorithms, maxDict, meanDict, metric)
    ensures r == Saved(key, algorithms, maxDict, meanDict, metric, metricName, offset)
    ensures r.Success? <==> forall i :: 0 <= i < |algorithms| ==>
      Truncatable(maxDict[algorithms[i]][metric], meanDict[algorithms[i]][metric])
    ensures r.Failure? ==> r.error == NaNError
  {
    var aggregated := NoTable;
    var i := 0;
    HoldsPrefix(algorithms, maxDict, meanDict, metric, 0);
    while i < |algorithms|
      invariant 0 <= i <= |algorithms|
      invariant Holds(algorithms[..i], maxDict, meanDict, metric) && AllTruncatable(algorithms[..i], maxDict, meanDict, metric)
      invariant aggregated == Aggregated(Tables(key, algorithms[..i], maxDict, meanDict, metric, metricName, offset))
    {
      var a := algorithms[i];
      var combined := Combined(key, a, metricName, maxDict[a][metric], meanDict[a][metric], offset);
      if combined.Failure? {
        return Failure(combined.error);
      }
      TablesNext(key, algorithms, maxDict, meanDict, metric, metricName, offset, i);
      AggregatedSnoc(Tables(key, algorithms[..i], maxDict, meanDict, metric, metricName, offset), combined.value);
      if Empty(aggregated) {
        aggregated := combined.value;
      } else {
        aggregated := Merge(aggregated, combined.value);
      }
      i := i + 1;
    }
    assert algorithms[..i] == algorithms;
    r := Success(aggregated);
  }

  /** `t` has one row per group of `maxima`, with the key plus `offset`, holding the
      truncated maximum and mean. */
  ghost predicate CombinedRows(t: Table, algorithm: string, metricName: string, maxima: Grouped, means: Grouped, offset: real) {
    && (forall x :: x in t.cells <==> x - offset in maxima)
    && forall x :: x in t.cells ==>
      && x - offset in means && maxima[x - offset].Some? && means[x - offset].Some?
      && t.cells[x] == Pair(algorithm, metricName, Trunc(maxima[x - offset].value), Trunc(means[x - offset].value))
  }

  /** The combined frame of `algorithms[i]`: the key and the algorithm's two
      columns, and one row per group with the key plus `offset`, holding the
      truncated maximum and mean. */
  lemma TableAt(key: string, algorithms: seq<string>, maxDict: map<string, Reduced>, meanDict: map<string, Reduced>,
                metric: string, metricName: string, offset: real, i: nat)
    requires Holds(algorithms, maxDict, meanDict, metric) && AllTruncatable(algorithms, maxDict, meanDict, metric)
    requires i < |algorithms|
    ensures var ts := Tables(key, algorithms, maxDict, meanDict, metric, metricName, offset);
      var a := algorithms[i];
      && ts[i].columns == [key, MaxColumn(a, metricName), MeanColumn(a, metricName)]
      && CombinedRows(ts[i], a, metricName, maxDict[a][metric], meanDict[a][metric], offset)
  {
    var ts := Tables(key, algorithms, maxDict, meanDict, metric, metricName, offset);
    var a := algorithms[i];
    assert a in algorithms;
    CellsMeaning(a, metricName, maxDict[a][metric], meanDict[a][metric], offset, ts[i]);
  }

  lemma CellsMeaning(a: string, metricName: string, maxima: Grouped, means: Grouped, offset: real, t: Table)
    requires Truncatable(maxima, means)
    requires t.cells == CombinedCells(a, metricName, maxima, means, offset)
    ensures CombinedRows(t, a, metricName, maxima, means, offset)
  {
  }

  /** Every combined frame has columns. */
  lemma TablesHaveColumns(key: string, algorithms: seq<string>, maxDict: map<string, Reduced>, meanDict: map<string, Reduced>,
                          metric: string, metricName: string, offset: real)
    requires Holds(algorithms, maxDict, meanDict, metric) && AllTruncatable(algorithms, maxDict, meanDict, metric)
    ensures HaveColumns(Tables(key, algorithms, maxDict, meanDict, metric, metricName, offset))
  {
    var ts := Tables(key, algorithms, maxDict, meanDict, metric, metricName, offset);
    forall j | 0 <= j < |ts| ensures ts[j].columns != [] {
      TableAt(key, algorithms, maxDict, meanDict, metric, metricName, offset, j);
    }
  }

  /** The saved table has a row for every group of every algorithm, its key plus
      `offset`, and no other row. */
  lemma SavedKeys(key: string, algorithms: seq<string>, maxDict: map<string, Reduced>, meanDict: map<string, Reduced>,
                  metric: string, metricName: string, offset: real, x: real)
    requires Holds(algorithms, maxDict, meanDict, metric)
    requires Saved(key, algorithms, maxDict, meanDict, metric, metricName, offset).Success?
    ensures x in Saved(key, algorithms, maxDict, meanDict, metric, metricName, offset).value.cells
        <==> exists a :: a in algorithms && x - offset in maxDict[a][metric]
  {
    var ts := Tables(key, algorithms, maxDict, meanDict, metric, metricName, offset);
    TablesHaveColumns(key, algorithms, maxDict, meanDict, metric, metricName, offset);
    AggregatedKeys(ts);
    if exists a :: a in algorithms && x - offset in maxDict[a][metric] {
      var a :| a in algorithms && x - offset in maxDict[a][metric];
      var i :| 0 <= i < |algorithms| && algorithms[i] == a;
      TableAt(key, algorithms, maxDict, meanDict, metric, metricName, offset, i);
      assert x in ts[i].cells;
    }
    if x in Aggregated(ts).cells {
      var i :| 0 <= i < |ts| && x in ts[i].cells;
      TableAt(key, algorithms, maxDict, meanDict, metric, metricName, offset, i);
      assert algorithms[i] in algorithms;
    }
  }

  predicate Distinct(algorithms: seq<string>) {
    forall i, j :: 0 <= i < j < |algorithms| ==> algorithms[i] != algorithms[j]
  }

  /** With distinct algorithms, the columns of an algorithm belong to its combined
      frame alone. */
  lemma ColumnsExclusive(key: string, algorithms: seq<string>, maxDict: map<string, Reduced>, meanDict: map<string, Reduced>,
                         metric: string, metricName: string, offset: real, i: nat)
    requires Holds(algorithms, maxDict, meanDict, metric) && AllTruncatable(algorithms, maxDict, meanDict, metric)
    requires Distinct(algorithms) && i < |algorithms|
    ensures var ts := Tables(key, algorithms, maxDict, meanDict, metric, metricName, offset);
      && Exclusive(ts, i, MaxColumn(algorithms[i], metricName))
      && Exclusive(ts, i, MeanColumn(algorithms[i], metricName))
  {
    var ts := Tables(key, algorithms, maxDict, meanDict, metric, metricName, offset);
    var a := algorithms[i];
    forall j, x | 0 <= j < |ts| && j != i && x in ts[j].cells
      ensures MaxColumn(a, metricName) !in ts[j].cells[x] && MeanColumn(a, metricName) !in ts[j].cells[x]
    {
      TableAt(key, algorithms, maxDict, meanDict, metric, metricName, offset, j);
      var b := algorithms[j];
      PairColumns(b, a, metricName, Trunc(maxDict[b][metric][x - offset].value), Trunc(meanDict[b][metric][x - offset].value));
    }
  }

  /** A row of algorithm `a` has no column of another algorithm `b`. */
  lemma PairColumns(a: string, b: string, metricName: string, maximum: int, mean: int)
    requires a != b
    ensures MaxColumn(b, metricName) !in Pair(a, metricName, maximum, mean)
    ensures MeanColumn(b, metricName) !in Pair(a, metricName, maximum, mean)
  {
    ColumnsDiffer(a, b, metricName);
    ColumnsDiffer(b, a, metricName);
  }

  /** A row of a combined frame whose two columns no other frame has survives the
      merges with both its cells. */
  lemma PairSurvives(ts: seq<Table>, i: int, x: real, a: string, metricName: string, maximum: int, mean: int)
    requires HaveColumns(ts) && 0 <= i < |ts| && x in ts[i].cells
    requires ts[i].cells[x] == Pair(a, metricName, maximum, mean)
    requires Exclusive(ts, i, MaxColumn(a, metricName)) && Exclusive(ts, i, MeanColumn(a, metricName))
    ensures var row := Aggregated(ts).cells;
      && x in row && MaxColumn(a, metricName) in row[x] && MeanColumn(a, metricName) in row[x]
      && row[x][MaxColumn(a, metricName)] == maximum && row[x][MeanColumn(a, metricName)] == mean
  {
    ColumnsDiffer(a, a, metricName);
    AggregatedCell(ts, i, x, MaxColumn(a, metricName));
    AggregatedCell(ts, i, x, MeanColumn(a, metricName));
  }

  /** With distinct algorithms, the saved row of a group holds that algorithm's
      truncated maximum and mean under its own column names. */
  lemma SavedCell(key: string, algorithms: seq<string>, maxDict: map<string, Reduced>, meanDict: map<string, Reduced>,
                  metric: string, metricName: string, offset: real, i: nat, k: real)
    requires Holds(algorithms, maxDict, meanDict, metric) && Distinct(algorithms) && i < |algorithms|
    requires Saved(key, algorithms, maxDict, meanDict, metric, metricName, offset).Success?
    requires k in maxDict[algorithms[i]][metric]
    ensures var t := Saved(key, algorithms, maxDict, meanDict, metric, metricName, offset).value;
      var a := algorithms[i];
      && k + offset in t.cells
      && MaxColumn(a, metricName) in t.cells[k + offset] && MeanColumn(a, metricName) in t.cells[k + offset]
      && maxDict[a][metric][k].Some? && meanDict[a][metric][k].Some?
      && t.cells[k + offset][MaxColumn(a, metricName)] == Trunc(maxDict[a][metric][k].value)
      && t.cells[k + offset][MeanColumn(a, metricName)] == Trunc(meanDict[a][metric][k].value)
  {
    AggregatedRow(key, algorithms, maxDict, meanDict, metric, metricName, offset, i, k);
  }

  lemma AggregatedRow(key: string, algorithms: seq<string>, maxDict: map<string, Reduced>, meanDict: map<string, Reduced>,
                      metric: string, metricName: string, offset: real, i: nat, k: real)
    requires Holds(algorithms, maxDict, meanDict, metric) && AllTruncatable(algorithms, maxDict, meanDict, metric)
    requires Distinct(algorithms) && i < |algorithms|
    requires k in maxDict[algorithms[i]][metric]
    ensures var t := Aggregated(Tables(key, algorithms, maxDict, meanDict, metric, metricName, offset));
      var a := algorithms[i];
      && k + offset in t.cells
      && MaxColumn(a, metricName) in t.cells[k + offset] && MeanColumn(a, metricName) in t.cells[k + offset]
      && maxDict[a][metric][k].Some? && meanDict[a][metric][k].Some?
      && t.cells[k + offset][MaxColumn(a, metricName)] == Trunc(maxDict[a][metric][k].value)
      && t.cells[k + offset][MeanColumn(a, metricName)] == Trunc(meanDict[a][metric][k].value)
  {
    var ts := Tables(key, algorithms, maxDict, meanDict, metric, metricName, offset);
    var a := algorithms[i];
    TableAt(key, algorithms, maxDict, meanDict, metric, metricName, offset, i);
    assert (k + offset) - offset == k;
    TablesHaveColumns(key, algorithms, maxDict, meanDict, metric, metricName, offset);
    ColumnsExclusive(key, algorithms, maxDict, meanDict, metric, metricName, offset, i);
    PairSurvives(ts, i, k + offset, a, metricName, Trunc(maxDict[a][metric][k].value), Trunc(meanDict[a][metric][k].value));
  }

  /** Every cell of the saved table is the maximum or the mean column of an
      algorithm that has the row's group; a missing cell is NaN. */
  lemma SavedCellsFrom(key: string, algorithms: seq<string>, maxDict: map<string, Reduced>, meanDict: map<string, Reduced>,
                       metric: string, metricName: string, offset: real, x: real, c: string)
    requires Holds(algorithms, maxDict, meanDict, metric)
    requires Saved(key, algorithms, maxDict, meanDict, metric, metricName, offset).Success?
    requires x in Saved(key, algorithms, maxDict, meanDict, metric, metricName, offset).value.cells
    requires c in Saved(key, algorithms, maxDict, meanDict, metric, metricName, offset).value.cells[x]
    ensures exists i :: 0 <= i < |algorithms| && OwnsCell(algorithms[i], maxDict, metric, metricName, x - offset, c)
  {
    AggregatedCellOwned(key, algorithms, maxDict, meanDict, metric, metricName, offset, x, c);
  }

  lemma AggregatedCellOwned(key: string, algorithms: seq<string>, maxDict: map<string, Reduced>, meanDict: map<string, Reduced>,
                            metric: string, metricName: string, offset: real, x: real, c: string)
    requires Holds(algorithms, maxDict, meanDict, metric) && AllTruncatable(algorithms, maxDict, meanDict, metric)
    requires x in Aggregated(Tables(key, algorithms, maxDict, meanDict, metric, metricName, offset)).cells
    requires c in Aggregated(Tables(key, algorithms, maxDict, meanDict, metric, metricName, offset)).cells[x]
    ensures exists i :: 0 <= i < |algorithms| && OwnsCell(algorithms[i], maxDict, metric, metricName, x - offset, c)
  {
    var ts := Tables(key, algorithms, maxDict, meanDict, metric, metricName, offset);
    AggregatedCellsFrom(ts, x, c);
    forall i | 0 <= i < |ts| && x in ts[i].cells && c in ts[i].cells[x]
      ensures OwnsCell(algorithms[i], maxDict, metric, metricName, x - offset, c)
    {
      TableOwns(key, algorithms, maxDict, meanDict, metric, metricName, offset, i, x, c);
    }
  }

  lemma TableOwns(key: string, algorithms: seq<string>, maxDict: map<string, Reduced>, meanDict: map<string, Reduced>,
                  metric: string, metricName: string, offset: real, i: nat, x: real, c: string)
    requires Holds(algorithms, maxDict, meanDict, metric) && AllTruncatable(algorithms, maxDict, meanDict, metric)
    requires i < |algorithms|
    requires x in Tables(key, algorithms, maxDict, meanDict, metric, metricName, offset)[i].cells
    requires c in Tables(key, algorithms, maxDict, meanDict, metric, metricName, offset)[i].cells[x]
    ensures OwnsCell(algorithms[i], maxDict, metric, metricName, x - offset, c)
  {
    TableAt(key, algorithms, maxDict, meanDict, metric, metricName, offset, i);
    assert algorithms[i] in algorithms;
  }

  /** Cell `c` of group `k` is algorithm `a`'s maximum or mean. */
  predicate OwnsCell(a: string, maxDict: map<string, Reduced>, metric: string, metricName: string, k: real, c: string) {
    && a in maxDict && metric in maxDict[a] && k in maxDict[a][metric]
    && (c == MaxColumn(a, metricName) || c == MeanColumn(a, metricName))
  }

  /** The maximum and mean column names of `algorithms`, in order. */
  function ColumnPairs(algorithms: seq<string>, metricName: string): (r: seq<string>)
    ensures |r| == 2 * |algorithms|
    ensures forall i :: 0 <= i < |algorithms| ==>
      r[2 * i] == MaxColumn(algorithms[i], metricName) && r[2 * i + 1] == MeanColumn(algorithms[i], metricName)
  {
    if algorithms == [] then []
    else
      var n := |algorithms| - 1;
      var rest := ColumnPairs(algorithms[..n], metricName);
      assert forall i :: 0 <= i < n ==> algorithms[..n][i] == algorithms[i];
      rest + [MaxColumn(algorithms[n], metricName), MeanColumn(algorithms[n], metricName)]
  }

  lemma {:induction false} DataColumnsArePairs(key: string, algorithms: seq<string>, ts: seq<Table>, metricName: string)
    requires |ts| == |algorithms|
    requires forall i :: 0 <= i < |ts| ==> ts[i].columns == [key, MaxColumn(algorithms[i], metricName), MeanColumn(algorithms[i], metricName)]
    ensures AllDataColumns(ts) == ColumnPairs(algorithms, metricName)
  {
    if ts != [] {
      var n := |ts| - 1;
      assert forall i :: 0 <= i < n ==> ts[..n][i] == ts[i] && algorithms[..n][i] == algorithms[i];
      DataColumnsArePairs(key, algorithms[..n], ts[..n], metricName);
    }
  }

  /** The saved table's columns: the key, then the maximum and the mean of every
      algorithm from the first one that has a group on; the columns of algorithms
      without groups before it are lost. */
  lemma SavedColumns(key: string, algorithms: seq<string>, maxDict: map<string, Reduced>, meanDict: map<string, Reduced>,
                     metric: string, metricName: string, offset: real, f: nat, k: real)
    requires Holds(algorithms, maxDict, meanDict, metric) && f < |algorithms|
    requires Saved(key, algorithms, maxDict, meanDict, metric, metricName, offset).Success?
    requires forall j :: 0 <= j < f ==> maxDict[algorithms[j]][metric] == map[]
    requires k in maxDict[algorithms[f]][metric]
    ensures Saved(key, algorithms, maxDict, meanDict, metric, metricName, offset).value.columns
         == [key, MaxColumn(algorithms[f], metricName), MeanColumn(algorithms[f], metricName)]
            + ColumnPairs(algorithms[f + 1..], metricName)
  {
    AggregatedColumnsOf(key, algorithms, maxDict, meanDict, metric, metricName, offset, f, k);
  }

  lemma AggregatedColumnsOf(key: string, algorithms: seq<string>, maxDict: map<string, Reduced>, meanDict: map<string, Reduced>,
                            metric: string, metricName: string, offset: real, f: nat, k: real)
    requires Holds(algorithms, maxDict, meanDict, metric) && f < |algorithms|
    requires AllTruncatable(algorithms, maxDict, meanDict, metric)
    requires forall j :: 0 <= j < f ==> maxDict[algorithms[j]][metric] == map[]
    requires k in maxDict[algorithms[f]][metric]
    ensures Aggregated(Tables(key, algorithms, maxDict, meanDict, metric, metricName, offset)).columns
         == [key, MaxColumn(algorithms[f], metricName), MeanColumn(algorithms[f], metricName)]
            + ColumnPairs(algorithms[f + 1..], metricName)
  {
    var ts := Tables(key, algorithms, maxDict, meanDict, metric, metricName, offset);
    forall j | 0 <= j < |ts| ensures ts[j].columns == [key, MaxColumn(algorithms[j], metricName), MeanColumn(algorithms[j], metricName)] {
      TableAt(key, algorithms, maxDict, meanDict, metric, metricName, offset, j);
    }
    TableAt(key, algorithms, maxDict, meanDict, metric, metricName, offset, f);
    assert (k + offset) - offset == k;
    assert k + offset in ts[f].cells;
    forall j | 0 <= j < f ensures ts[j].cells == map[] {
      TableAt(key, algorithms, maxDict, meanDict, metric, metricName, offset, j);
      assert forall x :: x !in ts[j].cells;
    }
    AggregatedColumns(ts, f, k + offset);
    LaterColumns(key, algorithms, ts, metricName, f);
  }

  lemma LaterColumns(key: string, algorithms: seq<string>, ts: seq<Table>, metricName: string, f: nat)
    requires |ts| == |algorithms| && f < |ts|
    requires forall i :: 0 <= i < |ts| ==> ts[i].columns == [key, MaxColumn(algorithms[i], metricName), MeanColumn(algorithms[i], metricName)]
    ensures AllDataColumns(ts[f + 1..]) == ColumnPairs(algorithms[f + 1..], metricName)
  {
    var later, names := ts[f + 1..], algorithms[f + 1..];
    assert forall i :: 0 <= i < |later| ==> later[i] == ts[f + 1 + i] && names[i] == algorithms[f + 1 + i];
    DataColumnsArePairs(key, names, later, metricName);
  }

  /** Where every algorithm's mean is at most its maximum, the saved mean is at most
      the saved maximum. */
  lemma SavedMeanAtMostMax(key: string, algorithms: seq<string>, maxDict: map<string, Reduced>, meanDict: map<string, Reduced>,
                           metric: string, metricName: string, offset: real, i: nat, k: real)
    requires Holds(algorithms, maxDict, meanDict, metric) && Distinct(algorithms) && i < |algorithms|
    requires Saved(key, algorithms, maxDict, meanDict, metric, metricName, offset).Success?
    requires k in maxDict[algorithms[i]][metric]
    requires meanDict[algorithms[i]][metric][k].Some? && maxDict[algorithms[i]][metric][k].Some?
    requires meanDict[algorithms[i]][metric][k].value <= maxDict[algorithms[i]][metric][k].value
    ensures var t := Saved(key, algorithms, maxDict, meanDict, metric, metricName, offset).value;
      && k + offset in t.cells
      && MaxColumn(algorithms[i], metricName) in t.cells[k + offset] && MeanColumn(algorithms[i], metricName) in t.cells[k + offset]
      && t.cells[k + offset][MeanColumn(algorithms[i], metricName)] <= t.cells[k + offset][MaxColumn(algorithms[i], metricName)]
  {
    SavedCell(key, algorithms, maxDict, meanDict, metric, metricName, offset, i, k);
    TruncMonotone(meanDict[algorithms[i]][metric][k].value, maxDict[algorithms[i]][metric][k].value);
  }
}
