/** `bank/plottingBankBar.py` up to its plots: the sample logs of the four
    algorithms are grouped by `delay`, with the CPU share divided by 4 and the
    database CPU share by 3, one table per metric is saved, and the execution-time
    table is saved; unlike the mergesort script, no key is shifted. */
module BankPlot {
  import opened Base
  import opened Csv
  import opened Frames
  import opened Reduction
  import opened Aggregate
  import opened Plotting
  import BankSweep
  import Sweep

  /** `algorithms`, in the order the logs are read and the tables merged. */
  const Algorithms: seq<string> := ["virtual", "platform", "coroutines", "goroutines"]

  const Key: string := "delay"

  /** The delays are saved as they are. */
  const Offset: real := 0.0

  /** The time columns, in the order the script coerces them. */
  const TimeNames: seq<string> := ["virtual", "platform", "coroutines", "goroutines"]

  /** The metrics of the grouping and of the four `save_aggregated_csv` calls, in
      order, with the divisors the script applies after coercion. */
  function Metrics(): (r: seq<Metric>)
    ensures ValidMetrics(r) && |r| == 4
  {
    assert "memory_usage"[0] != "postgres_cpu"[0];
    [Metric("cpu_usage", 4.0), Metric("memory_usage", 1.0), Metric("num_threads", 1.0), Metric("postgres_cpu", 3.0)]
  }

  lemma AlgorithmsDistinct()
    ensures Distinct(Algorithms)
  {
    assert Algorithms[0][0] == 'v' && Algorithms[1][0] == 'p' && Algorithms[2][0] == 'c' && Algorithms[3][0] == 'g';
  }

  /** The four aggregated files. */
  lemma MetricFileNames()
    ensures MetricFiles(Metrics(), 4)
      == {"cpu_usage_aggregated.csv", "memory_usage_aggregated.csv", "num_threads_aggregated.csv", "postgres_cpu_aggregated.csv"}
  {
    var m := Metrics();
    assert AggregatedFile(m[0].name) == "cpu_usage_aggregated.csv";
    assert AggregatedFile(m[1].name) == "memory_usage_aggregated.csv";
    assert AggregatedFile(m[2].name) == "num_threads_aggregated.csv";
    assert AggregatedFile(m[3].name) == "postgres_cpu_aggregated.csv";
  }

  /** The five columns of the execution-time table, and its delays as read. */
  lemma ExecutionColumnNames(columns: seq<seq<Value>>)
    requires |columns| == |TimeNames| + 1
    requires forall j :: 0 <= j < |columns| ==> |columns[j]| == |columns[0]|
    ensures var t := ExecutionTable(Key, TimeNames, columns, Offset);
      && t.columns == ["delay", "virtual_execution_time", "platform_execution_time", "coroutines_execution_time", "goroutines_execution_time"]
      && forall i :: 0 <= i < |t.rows| ==> t.rows[i][0] == columns[0][i]
  {
    var names := ExecutionColumns(Key, TimeNames);
    ExecutionColumnsOfAlgorithms();
    assert |names| == 5 && names[0] == "delay";
    assert names[1] == ExecutionColumn(TimeNames[0]) && names[2] == ExecutionColumn(TimeNames[1]);
    assert names[3] == ExecutionColumn(TimeNames[2]) && names[4] == ExecutionColumn(TimeNames[3]);
  }

  /** A log as the bank monitor writes it has no `delay` column: its reduction
      stops at `data['delay']` with a `KeyError`. */
  lemma MonitorLogLacksDelay(rows: seq<Row>)
    ensures ReduceLog([BankSweep.SampleHeader] + rows, Key, Metrics()) == Failure("KeyError: delay")
  {
    var content := [BankSweep.SampleHeader] + rows;
    assert content[0] == BankSweep.SampleHeader;
    assert Str(Key) !in BankSweep.SampleHeader by {
      assert |"delay"| != |"transactions"| && "delay"[0] != "timestamp"[0] && "delay"[0] != "cpu_usage"[0];
      assert "delay"[0] != "memory_usage"[0] && "delay"[0] != "num_threads"[0];
    }
    assert ColumnIndex(content[0], Key).None?;
    assert "KeyError: " + Key == "KeyError: delay";
    assert ([Key] + Names(Metrics()))[0] == Key;
  }

  /** Run on the logs the bank monitor writes, the script ends before any table is
      saved: the first algorithm's log already lacks the `delay` column. */
  lemma MonitorLogsStopScript(files: map<string, seq<Row>>)
    requires Sweep.LogOf(Algorithms[0]) in files
    requires var log := files[Sweep.LogOf(Algorithms[0])]; log != [] && log[0] == BankSweep.SampleHeader
    ensures Reductions(files, Algorithms, Key, Metrics()) == Failure("KeyError: delay")
  {
    var log := files[Sweep.LogOf(Algorithms[0])];
    assert log == [BankSweep.SampleHeader] + log[1..];
    MonitorLogLacksDelay(log[1..]);
    assert ReadAndReduce(files, Algorithms[0], Key, Metrics()) == Failure("KeyError: delay");
    ReductionsSucceed(files, Algorithms, Key, Metrics());
    ReductionsFirstFailing(files, Algorithms, Key, Metrics());
    var e := Reductions(files, Algorithms, Key, Metrics()).error;
    var i :| FailsAt(files, Algorithms, Key, Metrics(), i, e);
    assert i == 0;
  }

  /** The files the script writes before plotting, or the error that ends it. A run
      to the end saves exactly the four metric tables and the execution-time table
      under the five column names, its delays unchanged; no metric table takes the
      execution-time table's file. */
  method WriteFiles(files: map<string, seq<Row>>) returns (written: map<string, Table>, execution: Option<Frame>, error: Option<string>)
    ensures ExecutionFile !in written
    ensures error.None? ==>
      && Reductions(files, Algorithms, Key, Metrics()).Success?
      && TimeColumns(files, Key, TimeNames).Success?
      && SavedUpTo(written, files, Algorithms, Key, Metrics(), Offset, 4)
      && written.Keys
         == {"cpu_usage_aggregated.csv", "memory_usage_aggregated.csv", "num_threads_aggregated.csv", "postgres_cpu_aggregated.csv"}
      && execution == Some(ExecutionTable(Key, TimeNames, TimeColumns(files, Key, TimeNames).value, Offset))
      && execution.value.columns == ["delay", "virtual_execution_time", "platform_execution_time",
                                     "coroutines_execution_time", "goroutines_execution_time"]
      && forall i :: 0 <= i < |execution.value.rows| ==>
           execution.value.rows[i][0] == TimeColumns(files, Key, TimeNames).value[0][i]
    ensures error.Some? ==> execution.None?
    ensures Reductions(files, Algorithms, Key, Metrics()).Failure? ==>
      error == Some(Reductions(files, Algorithms, Key, Metrics()).error) && written == map[]
  {
    written, execution, error := WriteAggregates(files, Algorithms, Key, Metrics(), Offset, TimeNames);
    ExecutionFileApart(Metrics());
    if error.None? {
      MetricFileNames();
      ExecutionColumnNames(TimeColumns(files, Key, TimeNames).value);
    }
  }
}
