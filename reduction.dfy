/** The loop at the top of both bar-chart scripts: every algorithm's sample log
    is read, its columns coerced to numbers (and rescaled where the script says
    so), and grouped by the key column into a frame of maxima and one of means. */
module Reduction {
  import opened Base
  import opened Csv
  import opened Frames
  import opened GroupBy
  import Sweep

  /** A metric column, and what its coerced values are divided by. */
  datatype Metric = Metric(name: string, divisor: real)

  predicate ValidMetrics(metrics: seq<Metric>) {
    && (forall i :: 0 <= i < |metrics| ==> metrics[i].divisor != 0.0)
    && (forall i, j :: 0 <= i < j < |metrics| ==> metrics[i].name != metrics[j].name)
  }

  function Names(metrics: seq<Metric>): (r: seq<string>)
    ensures |r| == |metrics| && forall i :: 0 <= i < |r| ==> r[i] == metrics[i].name
  {
    seq(|metrics|, i requires 0 <= i < |metrics| => metrics[i].name)
  }

  /** Column `names[i]` is the first the log cannot give, with error `e`. */
  predicate FirstMissing(content: seq<Row>, names: seq<string>, i: nat, e: string)
    requires i < |names|
  {
    && NumericColumn(content, names[i]) == Failure(e)
    && forall j :: 0 <= j < i ==> NumericColumn(content, names[j]).Success?
  }

  /** The coerced columns `names`, in the order the script converts them; the
      first one the log cannot give ends the script with its error. */
  function NumericColumns(content: seq<Row>, names: seq<string>): (r: Result<seq<seq<Value>>, string>)
    ensures r.Success? <==> forall i :: 0 <= i < |names| ==> NumericColumn(content, names[i]).Success?
    ensures r.Success? ==>
      && |r.value| == |names|
      && forall i :: 0 <= i < |names| ==> r.value[i] == NumericColumn(content, names[i]).value
  {
    if names == [] then Success([])
    else match NumericColumn(content, names[0])
      case Failure(e) => Failure(e)
      case Success(first) =>
        var rest := NumericColumns(content, names[1..]);
        assert forall i :: 1 <= i < |names| ==> names[1..][i - 1] == names[i];
        match rest
        case Failure(e) => Failure(e)
        case Success(more) => Success([first] + more)
  }

  /** The error is that of the first column the log cannot give. */
  lemma {:induction false} FirstMissingColumn(content: seq<Row>, names: seq<string>)
    requires NumericColumns(content, names).Failure?
    ensures exists i :: 0 <= i < |names| && FirstMissing(content, names, i, NumericColumns(content, names).error)
  {
    var e := NumericColumns(content, names).error;
    if NumericColumn(content, names[0]).Failure? {
      assert FirstMissing(content, names, 0, e);
    } else {
      FirstMissingColumn(content, names[1..]);
      var i :| 0 <= i < |names| - 1 && FirstMissing(content, names[1..], i, e);
      assert forall j :: 0 <= j <= i ==> names[1..][j] == names[j + 1];
      assert FirstMissing(content, names, i + 1, e);
    }
  }

  /** The two reductions of `agg`. */
  datatype Reducer = Maximum | Average

  function Reduce(reducer: Reducer, keys: seq<Value>, values: seq<Value>): (r: Grouped)
    requires |keys| == |values|
    ensures r.Keys == Keys(keys)
  {
    match reducer
    case Maximum => GroupMax(keys, values)
    case Average => GroupMean(keys, values)
  }

  /** One reduced frame: metric name to its reduced column. */
  type Reduced = map<string, Grouped>

  /** The dictionary whose key `names[i]` maps to `values[i]`. */
  function ByName<V>(names: seq<string>, values: seq<V>): (r: map<string, V>)
    requires |names| == |values|
    requires forall i, j :: 0 <= i < j < |names| ==> names[i] != names[j]
    ensures forall m :: m in r <==> m in names
    ensures forall i :: 0 <= i < |names| ==> r[names[i]] == values[i]
  {
    if names == [] then map[]
    else
      var rest := ByName(names[1..], values[1..]);
      assert forall i :: 1 <= i < |names| ==> names[1..][i - 1] == names[i] && values[1..][i - 1] == values[i];
      rest[names[0] := values[0]]
  }

  /** `data.groupby(key).agg({metric: reducer, ...})` over the metric columns. */
  function GroupAll(reducer: Reducer, keys: seq<Value>, columns: seq<seq<Value>>, metrics: seq<Metric>): (r: Reduced)
    requires |columns| == |metrics| && ValidMetrics(metrics)
    requires forall i :: 0 <= i < |columns| ==> |columns[i]| == |keys|
    ensures forall m :: m in r <==> m in Names(metrics)
    ensures forall i :: 0 <= i < |metrics| ==>
      r[metrics[i].name] == Reduce(reducer, keys, Scaled(columns[i], metrics[i].divisor))
  {
    ByName(Names(metrics), seq(|metrics|, i requires 0 <= i < |metrics| =>
      Reduce(reducer, keys, Scaled(columns[i], metrics[i].divisor))))
  }

  /** One algorithm's pass of the loop: `max_values` and `mean_values` of its log,
      or the error that ends the script. */
  function ReduceLog(content: seq<Row>, key: string, metrics: seq<Metric>): (r: Result<(Reduced, Reduced), string>)
    requires ValidMetrics(metrics)
  {
    match NumericColumns(content, [key] + Names(metrics))
    case Failure(e) => Failure(e)
    case Success(columns) =>
      assert forall i :: 0 <= i < |columns| ==> |columns[i]| == |content| - 1;
      Success((GroupAll(Maximum, columns[0], columns[1..], metrics), GroupAll(Average, columns[0], columns[1..], metrics)))
  }

  /** What a reduction holds: for every metric, the maximum and the mean of the
      same groups of the coerced, rescaled log. */
  lemma ReducedMeaning(content: seq<Row>, key: string, metrics: seq<Metric>, i: nat)
    requires ValidMetrics(metrics) && i < |metrics|
    requires ReduceLog(content, key, metrics).Success?
    ensures var (maxima, means) := ReduceLog(content, key, metrics).value;
      var keys := NumericColumn(content, key).value;
      var values := Scaled(NumericColumn(content, metrics[i].name).value, metrics[i].divisor);
      && NumericColumn(content, key).Success? && NumericColumn(content, metrics[i].name).Success?
      && |keys| == |values|
      && metrics[i].name in maxima && maxima[metrics[i].name] == GroupMax(keys, values)
      && metrics[i].name in means && means[metrics[i].name] == GroupMean(keys, values)
  {
    var names := [key] + Names(metrics);
    assert names[0] == key && names[i + 1] == metrics[i].name;
    var columns := NumericColumns(content, names).value;
    assert columns[1..][i] == columns[i + 1];
    assert metrics[i].name in Names(metrics);
  }

  /** Within every group of a reduced log, the mean is at most the maximum, and it is
      NaN exactly when the maximum is. */
  lemma MeanAtMostMax(content: seq<Row>, key: string, metrics: seq<Metric>, i: nat, k: real)
    requires ValidMetrics(metrics) && i < |metrics|
    requires ReduceLog(content, key, metrics).Success?
    requires k in ReduceLog(content, key, metrics).value.0[metrics[i].name]
    ensures var (maxima, means) := ReduceLog(content, key, metrics).value;
      var m := metrics[i].name;
      && k in means[m]
      && (means[m][k].Some? <==> maxima[m][k].Some?)
      && (means[m][k].Some? ==> means[m][k].value <= maxima[m][k].value)
  {
    ReducedMeaning(content, key, metrics, i);
    var keys := NumericColumn(content, key).value;
    var values := Scaled(NumericColumn(content, metrics[i].name).value, metrics[i].divisor);
    GroupMeanBetween(keys, values, k);
  }

  /** `pd.read_csv(name)`: a file that is not there raises `FileNotFoundError`. */
  function ReadFile(files: map<string, seq<Row>>, name: string): (r: Result<seq<Row>, string>)
    ensures r.Success? <==> name in files
    ensures r.Success? ==> r.value == files[name]
  {
    if name in files then Success(files[name]) else Failure("FileNotFoundError: " + name)
  }

  /** `pd.read_csv(f"measurement_log_{algorithm}.csv")`. */
  function ReadLog(files: map<string, seq<Row>>, algorithm: string): Result<seq<Row>, string> {
    ReadFile(files, Sweep.LogOf(algorithm))
  }

  function ReadAndReduce(files: map<string, seq<Row>>, algorithm: string, key: string, metrics: seq<Metric>)
    : Result<(Reduced, Reduced), string>
    requires ValidMetrics(metrics)
  {
    match ReadLog(files, algorithm)
    case Failure(e) => Failure(e)
    case Success(content) => ReduceLog(content, key, metrics)
  }

  /** One algorithm's pass of the loop: its maxima and means, or its error. */
  type Pass = Result<(Reduced, Reduced), string>

  /** `max_values_dict` and `mean_values_dict`. */
  type Dicts = (map<string, Reduced>, map<string, Reduced>)

  /** The dictionaries once the loop has gone through `algorithms`, whose passes
      gave `passes`: each pass adds its algorithm to both, and the first pass that
      fails ends the loop with its error. */
  function Collect(algorithms: seq<string>, passes: seq<Pass>): Result<Dicts, string>
    requires |passes| == |algorithms|
  {
    if algorithms == [] then Success((map[], map[]))
    else
      var n := |algorithms| - 1;
      match Collect(algorithms[..n], passes[..n])
      case Failure(e) => Failure(e)
      case Success(dicts) =>
        match passes[n]
        case Failure(e) => Failure(e)
        case Success(reduced) => Success((dicts.0[algorithms[n] := reduced.0], dicts.1[algorithms[n] := reduced.1]))
  }

  /** The loop succeeds exactly when every pass does. */
  lemma {:induction false} CollectSucceeds(algorithms: seq<string>, passes: seq<Pass>)
    requires |passes| == |algorithms|
    ensures Collect(algorithms, passes).Success? <==> forall i :: 0 <= i < |passes| ==> passes[i].Success?
  {
    if algorithms != [] {
      var n := |algorithms| - 1;
      CollectSucceeds(algorithms[..n], passes[..n]);
      assert forall i :: 0 <= i < n ==> passes[..n][i] == passes[i];
    }
  }

  /** The same algorithm always gives the same pass. */
  predicate Consistent(algorithms: seq<string>, passes: seq<Pass>)
    requires |passes| == |algorithms|
  {
    forall i, j :: 0 <= i < |algorithms| && 0 <= j < |algorithms| && algorithms[i] == algorithms[j] ==> passes[i] == passes[j]
  }

  /** After a loop that succeeds, both dictionaries hold exactly the algorithms. */
  lemma {:induction false} CollectKeys(algorithms: seq<string>, passes: seq<Pass>)
    requires |passes| == |algorithms| && Collect(algorithms, passes).Success?
    ensures var dicts := Collect(algorithms, passes).value;
      && (forall a :: a in dicts.0 <==> a in algorithms)
      && (forall a :: a in dicts.1 <==> a in algorithms)
  {
    if algorithms != [] {
      var n := |algorithms| - 1;
      var prefix := algorithms[..n];
      CollectKeys(prefix, passes[..n]);
      forall b ensures b in algorithms <==> b in prefix || b == algorithms[n] {
        assert algorithms == prefix + [algorithms[n]];
      }
    }
  }

  /** A loop that succeeds has succeeded on all but the last algorithm, and adds
      the last one's reductions to both dictionaries. */
  lemma CollectLast(algorithms: seq<string>, passes: seq<Pass>)
    requires |passes| == |algorithms| && algorithms != [] && Collect(algorithms, passes).Success?
    ensures var n := |algorithms| - 1;
      && Collect(algorithms[..n], passes[..n]).Success? && passes[n].Success?
      && var dicts := Collect(algorithms[..n], passes[..n]).value;
         Collect(algorithms, passes).value
         == (dicts.0[algorithms[n] := passes[n].value.0], dicts.1[algorithms[n] := passes[n].value.1])
  {
  }

  lemma ConsistentPrefix(algorithms: seq<string>, passes: seq<Pass>, n: nat)
    requires |passes| == |algorithms| && n <= |algorithms| && Consistent(algorithms, passes)
    ensures Consistent(algorithms[..n], passes[..n])
  {
    assert forall i :: 0 <= i < n ==> algorithms[..n][i] == algorithms[i] && passes[..n][i] == passes[i];
  }

  /** After a loop that succeeds, every algorithm holds its pass's reductions in
      both dictionaries. */
  lemma {:induction false} CollectValues(algorithms: seq<string>, passes: seq<Pass>)
    requires |passes| == |algorithms| && Consistent(algorithms, passes)
    requires Collect(algorithms, passes).Success?
    ensures var dicts := Collect(algorithms, passes).value;
      forall i :: 0 <= i < |algorithms| ==>
        && passes[i].Success? && algorithms[i] in dicts.0 && algorithms[i] in dicts.1
        && (dicts.0[algorithms[i]], dicts.1[algorithms[i]]) == passes[i].value
  {
    if algorithms != [] {
      var n := |algorithms| - 1;
      var prefix, before := algorithms[..n], passes[..n];
      ConsistentPrefix(algorithms, passes, n);
      CollectValues(prefix, before);
      CollectLast(algorithms, passes);
      var dicts := Collect(prefix, before).value;
      var a, last := algorithms[n], passes[n].value;
      forall i | 0 <= i < |algorithms|
        ensures passes[i].Success? && algorithms[i] in dicts.0[a := last.0] && algorithms[i] in dicts.1[a := last.1]
        ensures (dicts.0[a := last.0][algorithms[i]], dicts.1[a := last.1][algorithms[i]]) == passes[i].value
      {
        if algorithms[i] == a {
          assert passes[i] == passes[n];
        } else {
          assert prefix[i] == algorithms[i] && before[i] == passes[i];
        }
      }
    }
  }

  /** A loop that fails does so with the error of its first failing pass. */
  lemma {:induction false} CollectFirstFailing(algorithms: seq<string>, passes: seq<Pass>)
    requires |passes| == |algorithms| && Collect(algorithms, passes).Failure?
    ensures exists i :: 0 <= i < |passes| && passes[i] == Failure(Collect(algorithms, passes).error)
                        && forall j :: 0 <= j < i ==> passes[j].Success?
  {
    var n := |algorithms| - 1;
    var e := Collect(algorithms, passes).error;
    var before := passes[..n];
    assert forall j :: 0 <= j < n ==> before[j] == passes[j];
    if Collect(algorithms[..n], before).Failure? {
      CollectFirstFailing(algorithms[..n], before);
      var i :| 0 <= i < n && before[i] == Failure(e) && forall j :: 0 <= j < i ==> before[j].Success?;
      assert passes[i] == Failure(e);
    } else {
      CollectSucceeds(algorithms[..n], before);
      assert passes[n] == Failure(e);
    }
  }

  /** One more pass adds its reductions to both dictionaries, or ends the loop
      with its error. */
  lemma CollectNext(algorithms: seq<string>, passes: seq<Pass>, i: nat)
    requires |passes| == |algorithms| && i < |algorithms|
    requires Collect(algorithms[..i], passes[..i]).Success?
    ensures var dicts := Collect(algorithms[..i], passes[..i]).value;
      var a := algorithms[i];
      && (passes[i].Failure? ==> Collect(algorithms[..i + 1], passes[..i + 1]) == Failure(passes[i].error))
      && (passes[i].Success? ==> Collect(algorithms[..i + 1], passes[..i + 1])
                                 == Success((dicts.0[a := passes[i].value.0], dicts.1[a := passes[i].value.1])))
  {
    assert algorithms[..i + 1][..i] == algorithms[..i];
    assert passes[..i + 1][..i] == passes[..i];
  }

  /** Once a pass fails, the loop ends with its error. */
  lemma {:induction false} CollectFailureStays(algorithms: seq<string>, passes: seq<Pass>, n: nat)
    requires |passes| == |algorithms| && n <= |algorithms|
    requires Collect(algorithms[..n], passes[..n]).Failure?
    ensures Collect(algorithms, passes) == Collect(algorithms[..n], passes[..n])
    decreases |algorithms| - n
  {
    if n < |algorithms| {
      assert algorithms[..n + 1][..n] == algorithms[..n];
      assert passes[..n + 1][..n] == passes[..n];
      CollectFailureStays(algorithms, passes, n + 1);
    } else {
      assert algorithms[..n] == algorithms;
      assert passes[..n] == passes;
    }
  }

  /** The pass of every algorithm, in order. */
  function Passes(files: map<string, seq<Row>>, algorithms: seq<string>, key: string, metrics: seq<Metric>)
    : (r: seq<Pass>)
    requires ValidMetrics(metrics)
    ensures |r| == |algorithms|
    ensures forall i :: 0 <= i < |algorithms| ==> r[i] == ReadAndReduce(files, algorithms[i], key, metrics)
  {
    seq(|algorithms|, i requires 0 <= i < |algorithms| => ReadAndReduce(files, algorithms[i], key, metrics))
  }

  lemma PassesPrefix(files: map<string, seq<Row>>, algorithms: seq<string>, key: string, metrics: seq<Metric>, n: nat)
    requires ValidMetrics(metrics) && n <= |algorithms|
    ensures Passes(files, algorithms[..n], key, metrics) == Passes(files, algorithms, key, metrics)[..n]
  {
  }

  /** `max_values_dict` and `mean_values_dict` once the loop has gone through
      `algorithms`, or the error of the first algorithm whose log cannot be read
      or reduced. */
  function Reductions(files: map<string, seq<Row>>, algorithms: seq<string>, key: string, metrics: seq<Metric>)
    : Result<Dicts, string>
    requires ValidMetrics(metrics)
  {
    Collect(algorithms, Passes(files, algorithms, key, metrics))
  }

  /** The first algorithm whose log cannot be read or reduced is `algorithms[i]`,
      with error `e`. */
  predicate FirstFailing(files: map<string, seq<Row>>, algorithms: seq<string>, key: string, metrics: seq<Metric>,
                         i: nat, e: string)
    requires ValidMetrics(metrics) && i < |algorithms|
  {
    && ReadAndReduce(files, algorithms[i], key, metrics) == Failure(e)
    && forall j :: 0 <= j < i ==> ReadAndReduce(files, algorithms[j], key, metrics).Success?
  }

  predicate FailsAt(files: map<string, seq<Row>>, algorithms: seq<string>, key: string, metrics: seq<Metric>,
                    i: int, e: string)
    requires ValidMetrics(metrics)
  {
    0 <= i < |algorithms| && FirstFailing(files, algorithms, key, metrics, i, e)
  }

  /** The loop succeeds exactly when every log can be read and reduced. */
  lemma ReductionsSucceed(files: map<string, seq<Row>>, algorithms: seq<string>, key: string, metrics: seq<Metric>)
    requires ValidMetrics(metrics)
    ensures Reductions(files, algorithms, key, metrics).Success?
        <==> forall i :: 0 <= i < |algorithms| ==> ReadAndReduce(files, algorithms[i], key, metrics).Success?
  {
    CollectSucceeds(algorithms, Passes(files, algorithms, key, metrics));
  }

  /** After a loop that succeeds, both dictionaries hold every algorithm, and no
      other name, with its log's reductions. */
  lemma ReductionsValues(files: map<string, seq<Row>>, algorithms: seq<string>, key: string, metrics: seq<Metric>)
    requires ValidMetrics(metrics)
    requires Reductions(files, algorithms, key, metrics).Success?
    ensures var dicts := Reductions(files, algorithms, key, metrics).value;
      && (forall a :: a in dicts.0 <==> a in algorithms)
      && (forall a :: a in dicts.1 <==> a in algorithms)
      && forall a :: a in algorithms ==>
        && ReadAndReduce(files, a, key, metrics).Success?
        && (dicts.0[a], dicts.1[a]) == ReadAndReduce(files, a, key, metrics).value
  {
    var passes := Passes(files, algorithms, key, metrics);
    CollectKeys(algorithms, passes);
    CollectValues(algorithms, passes);
    forall a | a in algorithms
      ensures ReadAndReduce(files, a, key, metrics).Success?
      ensures (Collect(algorithms, passes).value.0[a], Collect(algorithms, passes).value.1[a])
              == ReadAndReduce(files, a, key, metrics).value
    {
      var i :| 0 <= i < |algorithms| && algorithms[i] == a;
      assert passes[i] == ReadAndReduce(files, a, key, metrics);
    }
  }

  /** A loop that fails does so with the error of the first algorithm that fails. */
  lemma ReductionsFirstFailing(files: map<string, seq<Row>>, algorithms: seq<string>, key: string, metrics: seq<Metric>)
    requires ValidMetrics(metrics)
    requires Reductions(files, algorithms, key, metrics).Failure?
    ensures exists i :: FailsAt(files, algorithms, key, metrics, i, Reductions(files, algorithms, key, metrics).error)
  {
    var passes := Passes(files, algorithms, key, metrics);
    CollectFirstFailing(algorithms, passes);
    var e := Reductions(files, algorithms, key, metrics).error;
    var i :| 0 <= i < |passes| && passes[i] == Failure(e) && forall j :: 0 <= j < i ==> passes[j].Success?;
    assert FailsAt(files, algorithms, key, metrics, i, e);
  }

  /** `max_values_dict` and `mean_values_dict` hold `metric` for every algorithm,
      with the same groups. */
  predicate Holds(algorithms: seq<string>, maxDict: map<string, Reduced>, meanDict: map<string, Reduced>, metric: string) {
    forall a :: a in algorithms ==>
      && a in maxDict && a in meanDict && metric in maxDict[a] && metric in meanDict[a]
      && maxDict[a][metric].Keys == meanDict[a][metric].Keys
  }

  /** A log that is read and reduced holds every metric, with the same groups in
      the maxima and the means. */
  lemma ReducedHolds(files: map<string, seq<Row>>, algorithm: string, key: string, metrics: seq<Metric>, i: nat)
    requires ValidMetrics(metrics) && i < |metrics|
    requires ReadAndReduce(files, algorithm, key, metrics).Success?
    ensures var (maxima, means) := ReadAndReduce(files, algorithm, key, metrics).value;
      && metrics[i].name in maxima && metrics[i].name in means
      && maxima[metrics[i].name].Keys == means[metrics[i].name].Keys
  {
    ReducedMeaning(ReadLog(files, algorithm).value, key, metrics, i);
  }

  /** After the loop every metric is held for every algorithm. */
  lemma ReductionsHold(files: map<string, seq<Row>>, algorithms: seq<string>, key: string, metrics: seq<Metric>, i: nat)
    requires ValidMetrics(metrics) && i < |metrics|
    requires Reductions(files, algorithms, key, metrics).Success?
    ensures var dicts := Reductions(files, algorithms, key, metrics).value;
      Holds(algorithms, dicts.0, dicts.1, metrics[i].name)
  {
    ReductionsValues(files, algorithms, key, metrics);
    forall a | a in algorithms {
      ReducedHolds(files, a, key, metrics, i);
    }
  }

  /** The loop that fills `max_values_dict` and `mean_values_dict`, ending the
      script with the error of the first algorithm whose log cannot be read or
      reduced. */
  method ReduceLogs(files: map<string, seq<Row>>, algorithms: seq<string>, key: string, metrics: seq<Metric>)
    returns (r: Result<(map<string, Reduced>, map<string, Reduced>), string>)
    requires ValidMetrics(metrics)
    ensures r == Reductions(files, algorithms, key, metrics)
  {
    var maxDict: map<string, Reduced> := map[];
    var meanDict: map<string, Reduced> := map[];
    var i := 0;
    while i < |algorithms|
      invariant 0 <= i <= |algorithms|
      invariant Reductions(files, algorithms[..i], key, metrics) == Success((maxDict, meanDict))
    {
      var algorithm := algorithms[i];
      var reduced := ReadAndReduce(files, algorithm, key, metrics);
      ReductionsNext(files, algorithms, key, metrics, i);
      if reduced.Failure? {
        ReductionsFailureStays(files, algorithms, key, metrics, i + 1);
        return Failure(reduced.error);
      }
      maxDict := maxDict[algorithm := reduced.value.0];
      meanDict := meanDict[algorithm := reduced.value.1];
      i := i + 1;
    }
    assert algorithms[..i] == algorithms;
    r := Success((maxDict, meanDict));
  }

  lemma ReductionsNext(files: map<string, seq<Row>>, algorithms: seq<string>, key: string, metrics: seq<Metric>, i: nat)
    requires ValidMetrics(metrics) && i < |algorithms|
    requires Reductions(files, algorithms[..i], key, metrics).Success?
    ensures var dicts := Reductions(files, algorithms[..i], key, metrics).value;
      var a := algorithms[i];
      var reduced := ReadAndReduce(files, a, key, metrics);
      && (reduced.Failure? ==> Reductions(files, algorithms[..i + 1], key, metrics) == Failure(reduced.error))
      && (reduced.Success? ==> Reductions(files, algorithms[..i + 1], key, metrics)
                               == Success((dicts.0[a := reduced.value.0], dicts.1[a := reduced.value.1])))
  {
    PassesPrefix(files, algorithms, key, metrics, i);
    PassesPrefix(files, algorithms, key, metrics, i + 1);
    CollectNext(algorithms, Passes(files, algorithms, key, metrics), i);
  }

  /** Once an algorithm fails, the loop fails with its error. */
  lemma ReductionsFailureStays(files: map<string, seq<Row>>, algorithms: seq<string>, key: string,
                               metrics: seq<Metric>, n: nat)
    requires ValidMetrics(metrics) && n <= |algorithms|
    requires Reductions(files, algorithms[..n], key, metrics).Failure?
    ensures Reductions(files, algorithms, key, metrics) == Reductions(files, algorithms[..n], key, metrics)
  {
    PassesPrefix(files, algorithms, key, metrics, n);
    CollectFailureStays(algorithms, Passes(files, algorithms, key, metrics), n);
  }
}
