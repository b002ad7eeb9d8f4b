/** `mergesort/plottingMergesortBar.py` up to its plots: the sample logs of the
    four algorithms are grouped by `max_depth`, one table per metric is saved with
    every depth one higher, and the execution-time table is saved with its depths
    one higher too. */
module MergesortPlot {
  import opened Base
  import opened Csv
  import opened Frames
  import opened Reduction
  import opened Aggregate
  import opened Plotting

  /** `algorithms`, in the order the logs are read and the tables merged. */
  const Algorithms: seq<string> := ["platform", "virtual", "coroutines", "goroutines"]

  const Key: string := "max_depth"

  /** `max_values['max_depth'] + 1` and `time_data['max_depth'] + 1`. */
  const Offset: real := 1.0

  /** The time columns, in the order the script coerces them. */
  const TimeNames: seq<string> := ["virtual", "platform", "coroutines", "goroutines"]

  /** The metrics of the grouping and of the three `save_aggregated_csv` calls, in
      order; none is rescaled. */
  function Metrics(): (r: seq<Metric>)
    ensures ValidMetrics(r) && |r| == 3
  {
    [Metric("cpu_usage", 1.0), Metric("memory_usage", 1.0), Metric("num_threads", 1.0)]
  }

  lemma AlgorithmsDistinct()
    ensures Distinct(Algorithms)
  {
    assert Algorithms[0][0] == 'p' && Algorithms[1][0] == 'v' && Algorithms[2][0] == 'c' && Algorithms[3][0] == 'g';
  }

  /** The three aggregated files. */
  lemma MetricFileNames()
    ensures MetricFiles(Metrics(), 3) == {"cpu_usage_aggregated.csv", "memory_usage_aggregated.csv", "num_threads_aggregated.csv"}
  {
    var m := Metrics();
    assert AggregatedFile(m[0].name) == "cpu_usage_aggregated.csv";
    assert AggregatedFile(m[1].name) == "memory_usage_aggregated.csv";
    assert AggregatedFile(m[2].name) == "num_threads_aggregated.csv";
  }

  /** The five columns of the execution-time table. */
  lemma ExecutionColumnNames()
    ensures ExecutionColumns(Key, TimeNames)
      == ["max_depth", "virtual_execution_time", "platform_execution_time", "coroutines_execution_time", "goroutines_execution_time"]
  {
    var names := ExecutionColumns(Key, TimeNames);
    ExecutionColumnsOfAlgorithms();
    assert |names| == 5 && names[0] == "max_depth";
    assert names[1] == ExecutionColumn(TimeNames[0]) && names[2] == ExecutionColumn(TimeNames[1]);
    assert names[3] == ExecutionColumn(TimeNames[2]) && names[4] == ExecutionColumn(TimeNames[3]);
  }

  /** The files the script writes before plotting, or the error that ends it. A run
      to the end saves exactly the three metric tables and the execution-time
      table under the five column names; no metric table takes the execution-time
      table's file. */
  method WriteFiles(files: map<string, seq<Row>>) returns (written: map<string, Table>, execution: Option<Frame>, error: Option<string>)
    ensures ExecutionFile !in written
    ensures error.None? ==>
      && Reductions(files, Algorithms, Key, Metrics()).Success?
      && TimeColumns(files, Key, TimeNames).Success?
      && SavedUpTo(written, files, Algorithms, Key, Metrics(), Offset, 3)
      && written.Keys == {"cpu_usage_aggregated.csv", "memory_usage_aggregated.csv", "num_threads_aggregated.csv"}
      && execution == Some(ExecutionTable(Key, TimeNames, TimeColumns(files, Key, TimeNames).value, Offset))
      && execution.value.columns == ["max_depth", "virtual_execution_time", "platform_execution_time",
                                     "coroutines_execution_time", "goroutines_execution_time"]
    ensures error.Some? ==> execution.None?
  {
    written, execution, error := WriteAggregates(files, Algorithms, Key, Metrics(), Offset, TimeNames);
    ExecutionFileApart(Metrics());
    if error.None? {
      MetricFileNames();
      ExecutionColumnNames();
    }
  }
}
