/** The part of a bar-chart script that writes files: the reduction of every
    sample log, the time log, one aggregated table per metric and the
    execution-time table, in the order the script runs them. The two scripts
    differ only in their algorithms, key column, key shift and metrics. */
module Plotting {
  import opened Base
  import opened Csv
  import opened Frames
  import opened GroupBy
  import opened Reduction
  import opened Aggregate
  import Sweep

  /** A frame written as it is: column names, and per row one value per column,
      NaN as `None`. */
  datatype Frame = Frame(columns: seq<string>, rows: seq<seq<Value>>)

  /** `f"{metric_name}_aggregated.csv"`. */
  function AggregatedFile(metricName: string): string {
    metricName + "_aggregated.csv"
  }

  const ExecutionFile: string := "execution_time_aggregated.csv"

  /** Different metrics are saved to different files. */
  lemma AggregatedFileInjective(a: string, b: string)
    requires AggregatedFile(a) == AggregatedFile(b)
    ensures a == b
  {
    assert AggregatedFile(a)[..|a|] == a;
    assert AggregatedFile(b)[..|b|] == b;
  }

  /** No metric's table is saved over the execution-time table, since no metric is
      called `execution_time`. */
  lemma AggregatedFileApart(metricName: string)
    requires metricName != "execution_time"
    ensures AggregatedFile(metricName) != ExecutionFile
  {
    if AggregatedFile(metricName) == ExecutionFile {
      assert AggregatedFile(metricName) == AggregatedFile("execution_time");
      AggregatedFileInjective(metricName, "execution_time");
    }
  }

  /** `f"{name}_execution_time"`. */
  function ExecutionColumn(name: string): string {
    name + "_execution_time"
  }

  /** `time_data[key] + offset`: NaN stays NaN. */
  function Shift(v: Value, offset: real): (r: Value)
    ensures r.Some? <==> v.Some?
    ensures offset == 0.0 ==> r == v
  {
    if v.Some? then Some(v.value + offset) else None
  }

  /** `pd.read_csv(TIME_LOG)` and the coercion of its key and time columns, in
      that order. */
  function TimeColumns(files: map<string, seq<Row>>, key: string, names: seq<string>): (r: Result<seq<seq<Value>>, string>)
    ensures r.Success? ==> |r.value| == |names| + 1
    ensures r.Success? ==> forall j :: 0 <= j < |r.value| ==> |r.value[j]| == |r.value[0]|
  {
    match ReadFile(files, Sweep.TimeLog)
    case Failure(e) => Failure(e)
    case Success(content) =>
      var columns := NumericColumns(content, [key] + names);
      assert columns.Success? ==> forall j :: 0 <= j < |columns.value| ==> |columns.value[j]| == |content| - 1;
      columns
  }

  /** The columns of `execution_time_aggregated`: the key, then every time column
      under its new name. */
  function ExecutionColumns(key: string, names: seq<string>): (r: seq<string>)
    ensures |r| == |names| + 1 && r[0] == key
    ensures forall j :: 0 <= j < |names| ==> r[j + 1] == ExecutionColumn(names[j])
  {
    [key] + seq(|names|, j requires 0 <= j < |names| => ExecutionColumn(names[j]))
  }

  /** The new names of the four time columns both scripts read. */
  lemma ExecutionColumnsOfAlgorithms()
    ensures ExecutionColumn("virtual") == "virtual_execution_time"
    ensures ExecutionColumn("platform") == "platform_execution_time"
    ensures ExecutionColumn("coroutines") == "coroutines_execution_time"
    ensures ExecutionColumn("goroutines") == "goroutines_execution_time"
  {
  }

  /** `execution_time_aggregated`: the key column plus `offset`, then every time
      column under its new name, one row per row of the time log. */
  function ExecutionTable(key: string, names: seq<string>, columns: seq<seq<Value>>, offset: real): (r: Frame)
    requires |columns| == |names| + 1
    requires forall j :: 0 <= j < |columns| ==> |columns[j]| == |columns[0]|
    ensures r.columns == ExecutionColumns(key, names)
    ensures |r.rows| == |columns[0]|
    ensures forall i :: 0 <= i < |r.rows| ==>
      && |r.rows[i]| == |names| + 1
      && r.rows[i][0] == Shift(columns[0][i], offset)
      && forall j :: 1 <= j <= |names| ==> r.rows[i][j] == columns[j][i]
  {
    Frame(ExecutionColumns(key, names),
          seq(|columns[0]|, i requires 0 <= i < |columns[0]| =>
            [Shift(columns[0][i], offset)] + seq(|names|, j requires 0 <= j < |names| => columns[j + 1][i])))
  }

  /** The execution-time table row by row: row `i` is row `i + 1` of the time log,
      its key cell coerced and shifted by `offset`, its time cells coerced. */
  lemma ExecutionRows(files: map<string, seq<Row>>, key: string, names: seq<string>, offset: real, i: nat, j: nat)
    requires TimeColumns(files, key, names).Success? && j < |names|
    ensures Sweep.TimeLog in files
    ensures var content := files[Sweep.TimeLog];
      && content != [] && Str(key) in content[0] && Str(names[j]) in content[0]
    ensures var content := files[Sweep.TimeLog];
      var t := ExecutionTable(key, names, TimeColumns(files, key, names).value, offset);
      && |t.rows| == |content| - 1
      && (i < |t.rows| ==>
        && t.rows[i][0] == Shift(ToNumeric(Field(content[i + 1], ColumnIndex(content[0], key).value)), offset)
        && t.rows[i][j + 1] == ToNumeric(Field(content[i + 1], ColumnIndex(content[0], names[j]).value)))
  {
    var content := files[Sweep.TimeLog];
    var all := [key] + names;
    assert all[0] == key && all[j + 1] == names[j];
  }

  /** `save_aggregated_csv(metric, metric)` of the `j`-th metric, on the reduced logs. */
  function SavedMetric(files: map<string, seq<Row>>, algorithms: seq<string>, key: string, metrics: seq<Metric>,
                       offset: real, j: nat): Result<Table, string>
    requires ValidMetrics(metrics) && j < |metrics|
    requires Reductions(files, algorithms, key, metrics).Success?
  {
    var dicts := Reductions(files, algorithms, key, metrics).value;
    ReductionsHold(files, algorithms, key, metrics, j);
    Saved(key, algorithms, dicts.0, dicts.1, metrics[j].name, metrics[j].name, offset)
  }

  /** The files of the first `n` metrics. */
  function MetricFiles(metrics: seq<Metric>, n: nat): (r: set<string>)
    requires n <= |metrics|
    ensures forall f :: f in r <==> exists j :: 0 <= j < n && f == AggregatedFile(metrics[j].name)
  {
    set j | 0 <= j < n :: AggregatedFile(metrics[j].name)
  }

  /** No metric file is the execution-time file when no metric is called
      `execution_time`. */
  lemma ExecutionFileApart(metrics: seq<Metric>)
    requires forall j :: 0 <= j < |metrics| ==> metrics[j].name != "execution_time"
    ensures ExecutionFile !in MetricFiles(metrics, |metrics|)
  {
    forall j | 0 <= j < |metrics| ensures AggregatedFile(metrics[j].name) != ExecutionFile {
      AggregatedFileApart(metrics[j].name);
    }
  }

  /** `tables[j]` was saved to the file of metric `j`, and nothing else was saved. */
  predicate Written(written: map<string, Table>, metrics: seq<Metric>, tables: seq<Table>)
    requires |tables| <= |metrics|
  {
    && written.Keys == MetricFiles(metrics, |tables|)
    && forall j :: 0 <= j < |tables| ==> written[AggregatedFile(metrics[j].name)] == tables[j]
  }

  /** Saving one more table keeps the earlier ones, since distinct metrics have
      distinct files. */
  lemma WrittenOneMore(written: map<string, Table>, metrics: seq<Metric>, tables: seq<Table>, t: Table)
    requires ValidMetrics(metrics) && |tables| < |metrics| && Written(written, metrics, tables)
    ensures Written(written[AggregatedFile(metrics[|tables|].name) := t], metrics, tables + [t])
  {
    var n := |tables|;
    var f := AggregatedFile(metrics[n].name);
    var after := written[f := t];
    MetricFilesSnoc(metrics, n);
    forall j | 0 <= j < n + 1 ensures after[AggregatedFile(metrics[j].name)] == (tables + [t])[j] {
      if j < n && AggregatedFile(metrics[j].name) == f {
        AggregatedFileInjective(metrics[j].name, metrics[n].name);
      }
    }
  }

  lemma MetricFilesSnoc(metrics: seq<Metric>, n: nat)
    requires n < |metrics|
    ensures MetricFiles(metrics, n + 1) == MetricFiles(metrics, n) + {AggregatedFile(metrics[n].name)}
  {
  }

  /** The first `n` metrics were saved, and `written` holds exactly their tables. */
  predicate SavedUpTo(written: map<string, Table>, files: map<string, seq<Row>>, algorithms: seq<string>, key: string,
                      metrics: seq<Metric>, offset: real, n: nat)
    requires ValidMetrics(metrics) && Reductions(files, algorithms, key, metrics).Success?
  {
    && n <= |metrics|
    && written.Keys == MetricFiles(metrics, n)
    && forall j :: 0 <= j < n ==>
      && SavedMetric(files, algorithms, key, metrics, offset, j).Success?
      && written[AggregatedFile(metrics[j].name)] == SavedMetric(files, algorithms, key, metrics, offset, j).value
  }

  lemma SavedFromWritten(written: map<string, Table>, files: map<string, seq<Row>>, algorithms: seq<string>, key: string,
                         metrics: seq<Metric>, offset: real, tables: seq<Table>)
    requires ValidMetrics(metrics) && Reductions(files, algorithms, key, metrics).Success?
    requires |tables| <= |metrics| && Written(written, metrics, tables)
    requires forall n :: 0 <= n < |tables| ==> SavedMetric(files, algorithms, key, metrics, offset, n) == Success(tables[n])
    ensures SavedUpTo(written, files, algorithms, key, metrics, offset, |tables|)
  {
  }

  /** The saves stopped at metric `n`, which raised. */
  predicate StoppedAt(written: map<string, Table>, files: map<string, seq<Row>>, algorithms: seq<string>, key: string,
                      metrics: seq<Metric>, offset: real, n: nat)
    requires ValidMetrics(metrics) && Reductions(files, algorithms, key, metrics).Success?
  {
    && n < |metrics|
    && SavedUpTo(written, files, algorithms, key, metrics, offset, n)
    && SavedMetric(files, algorithms, key, metrics, offset, n).Failure?
  }

  /** The files of fewer metrics are among those of more. */
  lemma MetricFilesGrow(metrics: seq<Metric>, n: nat, m: nat)
    requires n <= m <= |metrics|
    ensures MetricFiles(metrics, n) <= MetricFiles(metrics, m)
  {
  }

  /** The save of metric `j` is `save_aggregated_csv` on the reduced dictionaries. */
  lemma SavedMetricIs(files: map<string, seq<Row>>, algorithms: seq<string>, key: string, metrics: seq<Metric>,
                      offset: real, j: nat, maxDict: map<string, Reduced>, meanDict: map<string, Reduced>)
    requires ValidMetrics(metrics) && j < |metrics|
    requires Reductions(files, algorithms, key, metrics) == Success((maxDict, meanDict))
    ensures Holds(algorithms, maxDict, meanDict, metrics[j].name)
    ensures SavedMetric(files, algorithms, key, metrics, offset, j)
      == Saved(key, algorithms, maxDict, meanDict, metrics[j].name, metrics[j].name, offset)
  {
    ReductionsHold(files, algorithms, key, metrics, j);
  }

  /** The saves stop at the first metric that raises, with the earlier tables saved. */
  lemma StopsAt(written: map<string, Table>, files: map<string, seq<Row>>, algorithms: seq<string>, key: string,
                metrics: seq<Metric>, offset: real, tables: seq<Table>)
    requires ValidMetrics(metrics) && Reductions(files, algorithms, key, metrics).Success?
    requires |tables| < |metrics| && Written(written, metrics, tables)
    requires forall n :: 0 <= n < |tables| ==> SavedMetric(files, algorithms, key, metrics, offset, n) == Success(tables[n])
    requires SavedMetric(files, algorithms, key, metrics, offset, |tables|).Failure?
    ensures StoppedAt(written, files, algorithms, key, metrics, offset, |tables|)
    ensures !forall j :: 0 <= j < |metrics| ==> SavedMetric(files, algorithms, key, metrics, offset, j).Success?
  {
    SavedFromWritten(written, files, algorithms, key, metrics, offset, tables);
  }

  /** The `save_aggregated_csv` calls, one per metric in order: each table goes to
      its own file, until one raises. */
  method SaveMetrics(files: map<string, seq<Row>>, algorithms: seq<string>, key: string, metrics: seq<Metric>, offset: real,
                     maxDict: map<string, Reduced>, meanDict: map<string, Reduced>)
    returns (written: map<string, Table>, error: Option<string>)
    requires ValidMetrics(metrics) && Reductions(files, algorithms, key, metrics) == Success((maxDict, meanDict))
    ensures error.None? <==> forall j :: 0 <= j < |metrics| ==> SavedMetric(files, algorithms, key, metrics, offset, j).Success?
    ensures error.None? ==> SavedUpTo(written, files, algorithms, key, metrics, offset, |metrics|)
    ensures written.Keys <= MetricFiles(metrics, |metrics|)
    ensures error.Some? ==>
      && error == Some(NaNError)
      && exists n :: StoppedAt(written, files, algorithms, key, metrics, offset, n)
  {
    written, error := map[], None;
    ghost var tables: seq<Table> := [];
    var j := 0;
    while j < |metrics|
      invariant 0 <= j <= |metrics| && |tables| == j
      invariant Written(written, metrics, tables)
      invariant forall n :: 0 <= n < j ==> SavedMetric(files, algorithms, key, metrics, offset, n) == Success(tables[n])
    {
      var m := metrics[j].name;
      SavedMetricIs(files, algorithms, key, metrics, offset, j, maxDict, meanDict);
      var saved := SaveAggregated(key, algorithms, maxDict, meanDict, m, m, offset);
      if saved.Failure? {
        StopsAt(written, files, algorithms, key, metrics, offset, tables);
        MetricFilesGrow(metrics, j, |metrics|);
        error := Some(saved.error);
        return;
      }
      WrittenOneMore(written, metrics, tables, saved.value);
      written := written[AggregatedFile(m) := saved.value];
      tables := tables + [saved.value];
      j := j + 1;
    }
    SavedFromWritten(written, files, algorithms, key, metrics, offset, tables);
  }

  /** What a bar-chart script leaves behind before it plots, or the error that ends
      it: the logs of `algorithms` are reduced in order (the first that cannot be
      read or reduced ends the script with nothing written), then the time log is
      read and coerced (likewise), then the metrics are saved in order, each table
      to its own file, until one raises, and last the execution-time table is
      written. */
  method WriteAggregates(files: map<string, seq<Row>>, algorithms: seq<string>, key: string, metrics: seq<Metric>,
                         offset: real, timeNames: seq<string>)
    returns (written: map<string, Table>, execution: Option<Frame>, error: Option<string>)
    requires ValidMetrics(metrics)
    ensures written.Keys <= MetricFiles(metrics, |metrics|)
    ensures Reductions(files, algorithms, key, metrics).Failure? ==>
      && error == Some(Reductions(files, algorithms, key, metrics).error)
      && written == map[] && execution == None
    ensures Reductions(files, algorithms, key, metrics).Success? && TimeColumns(files, key, timeNames).Failure? ==>
      && error == Some(TimeColumns(files, key, timeNames).error)
      && written == map[] && execution == None
    ensures Reductions(files, algorithms, key, metrics).Success? && TimeColumns(files, key, timeNames).Success? ==>
      && (error.None? <==> forall j :: 0 <= j < |metrics| ==> SavedMetric(files, algorithms, key, metrics, offset, j).Success?)
      && (error.None? ==>
        && SavedUpTo(written, files, algorithms, key, metrics, offset, |metrics|)
        && execution == Some(ExecutionTable(key, timeNames, TimeColumns(files, key, timeNames).value, offset)))
      && (error.Some? ==>
        && error == Some(NaNError) && execution == None
        && exists n :: StoppedAt(written, files, algorithms, key, metrics, offset, n))
  {
    written, execution, error := map[], None, None;
    var reduced := ReduceLogs(files, algorithms, key, metrics);
    if reduced.Failure? {
      error := Some(reduced.error);
      return;
    }
    var time := TimeColumns(files, key, timeNames);
    if time.Failure? {
      error := Some(time.error);
      return;
    }
    written, error := SaveMetrics(files, algorithms, key, metrics, offset, reduced.value.0, reduced.value.1);
    if error.None? {
      execution := Some(ExecutionTable(key, timeNames, time.value, offset));
    }
  }

  /** The `j`-th aggregated table, cell by cell: with distinct algorithms, the row of
      every group of algorithm `a`'s log (its key plus `offset`) holds, under `a`'s
      two column names, the truncated maximum and mean of the metric over the rows
      of that group in `a`'s log, coerced and rescaled. */
  lemma AggregatedCellOfLog(files: map<string, seq<Row>>, algorithms: seq<string>, key: string, metrics: seq<Metric>,
                            offset: real, j: nat, i: nat, k: real)
    requires ValidMetrics(metrics) && j < |metrics| && Distinct(algorithms) && i < |algorithms|
    requires Reductions(files, algorithms, key, metrics).Success?
    requires SavedMetric(files, algorithms, key, metrics, offset, j).Success?
    requires var maxDict := Reductions(files, algorithms, key, metrics).value.0;
      algorithms[i] in maxDict && metrics[j].name in maxDict[algorithms[i]] && k in maxDict[algorithms[i]][metrics[j].name]
    ensures var a, m := algorithms[i], metrics[j].name;
      && Sweep.LogOf(a) in files
      && NumericColumn(files[Sweep.LogOf(a)], key).Success? && NumericColumn(files[Sweep.LogOf(a)], m).Success?
      && |NumericColumn(files[Sweep.LogOf(a)], key).value| == |NumericColumn(files[Sweep.LogOf(a)], m).value|
    ensures var a, m := algorithms[i], metrics[j].name;
      var content := files[Sweep.LogOf(a)];
      var keys := NumericColumn(content, key).value;
      var values := Scaled(NumericColumn(content, m).value, metrics[j].divisor);
      var t := SavedMetric(files, algorithms, key, metrics, offset, j).value;
      && k in GroupMax(keys, values) && k in GroupMean(keys, values)
      && GroupMax(keys, values)[k].Some? && GroupMean(keys, values)[k].Some?
      && k + offset in t.cells
      && MaxColumn(a, m) in t.cells[k + offset] && MeanColumn(a, m) in t.cells[k + offset]
      && t.cells[k + offset][MaxColumn(a, m)] == Trunc(GroupMax(keys, values)[k].value)
      && t.cells[k + offset][MeanColumn(a, m)] == Trunc(GroupMean(keys, values)[k].value)
  {
    var dicts := Reductions(files, algorithms, key, metrics).value;
    var m := metrics[j].name;
    ReductionsHold(files, algorithms, key, metrics, j);
    SavedCell(key, algorithms, dicts.0, dicts.1, m, m, offset, i, k);
    LogGroups(files, algorithms, key, metrics, j, i);
  }

  /** The reduction of algorithm `a`'s log for metric `m`: the maxima and means of
      the coerced, rescaled metric column grouped by the coerced key column. */
  lemma LogGroups(files: map<string, seq<Row>>, algorithms: seq<string>, key: string, metrics: seq<Metric>, j: nat, i: nat)
    requires ValidMetrics(metrics) && j < |metrics| && i < |algorithms|
    requires Reductions(files, algorithms, key, metrics).Success?
    ensures Sweep.LogOf(algorithms[i]) in files
    ensures var content := files[Sweep.LogOf(algorithms[i])];
      && NumericColumn(content, key).Success? && NumericColumn(content, metrics[j].name).Success?
      && |NumericColumn(content, key).value| == |NumericColumn(content, metrics[j].name).value|
    ensures var a, m := algorithms[i], metrics[j].name;
      var dicts := Reductions(files, algorithms, key, metrics).value;
      var content := files[Sweep.LogOf(a)];
      var keys := NumericColumn(content, key).value;
      var values := Scaled(NumericColumn(content, m).value, metrics[j].divisor);
      && a in dicts.0 && m in dicts.0[a] && dicts.0[a][m] == GroupMax(keys, values)
      && a in dicts.1 && m in dicts.1[a] && dicts.1[a][m] == GroupMean(keys, values)
  {
    var a := algorithms[i];
    assert a in algorithms;
    ReductionsValues(files, algorithms, key, metrics);
    var content := files[Sweep.LogOf(a)];
    ReducedMeaning(content, key, metrics, j);
  }

  /** In every aggregated table, the saved mean of a group is at most its saved
      maximum. */
  lemma AggregatedMeanAtMostMax(files: map<string, seq<Row>>, algorithms: seq<string>, key: string, metrics: seq<Metric>,
                                offset: real, j: nat, i: nat, k: real)
    requires ValidMetrics(metrics) && j < |metrics| && Distinct(algorithms) && i < |algorithms|
    requires Reductions(files, algorithms, key, metrics).Success?
    requires SavedMetric(files, algorithms, key, metrics, offset, j).Success?
    requires var maxDict := Reductions(files, algorithms, key, metrics).value.0;
      algorithms[i] in maxDict && metrics[j].name in maxDict[algorithms[i]] && k in maxDict[algorithms[i]][metrics[j].name]
    ensures var a, m := algorithms[i], metrics[j].name;
      var t := SavedMetric(files, algorithms, key, metrics, offset, j).value;
      && k + offset in t.cells
      && MaxColumn(a, m) in t.cells[k + offset] && MeanColumn(a, m) in t.cells[k + offset]
      && t.cells[k + offset][MeanColumn(a, m)] <= t.cells[k + offset][MaxColumn(a, m)]
  {
    var a, m := algorithms[i], metrics[j].name;
    var dicts := Reductions(files, algorithms, key, metrics).value;
    ReductionsHold(files, algorithms, key, metrics, j);
    SavedCell(key, algorithms, dicts.0, dicts.1, m, m, offset, i, k);
    LogGroups(files, algorithms, key, metrics, j, i);
    var content := files[Sweep.LogOf(a)];
    var keys := NumericColumn(content, key).value;
    var values := Scaled(NumericColumn(content, m).value, metrics[j].divisor);
    GroupMeanBetween(keys, values, k);
    TruncMonotone(dicts.1[a][m][k].value, dicts.0[a][m][k].value);
  }
}
