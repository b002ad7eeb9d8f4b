/** What the three monitors' `main` and `measure` share: Python's `range`, the
    `execution_times` dictionary the durations are kept in, and the rule that a
    per-algorithm log gets its header only while it is empty. */
module Sweep {
  import opened Csv

  /** `range(start, stop, step)` for a positive step. */
  function Range(start: int, stop: int, step: int): (r: seq<int>)
    requires step > 0
    ensures forall i :: 0 <= i < |r| ==> r[i] == start + i * step
    ensures forall i :: 0 <= i < |r| ==> r[i] < stop
    ensures start + |r| * step >= stop
    decreases stop - start
  {
    if start >= stop then []
    else
      var rest := Range(start + step, stop, step);
      assert forall i :: 1 <= i < |rest| + 1 ==> ([start] + rest)[i] == rest[i - 1];
      [start] + rest
  }

  lemma TakeOneMore<T>(s: seq<T>, i: nat)
    requires i < |s|
    ensures s[..i + 1] == s[..i] + [s[i]]
  {
  }

  /** What begins with `done + round` begins with `done` and part of `round`. */
  lemma PrefixCut<T>(done: seq<T>, round: seq<T>, w: nat, all: seq<T>)
    requires w <= |round| && done + round <= all
    ensures done + round[..w] <= all
  {
    assert (done + round)[..|done| + w] == done + round[..w];
  }

  lemma TakeAll<T>(s: seq<T>)
    ensures s[..|s|] == s
  {
  }

  lemma EmptyThen<T>(s: seq<T>)
    ensures [] + s == s
  {
  }

  lemma PrefixTake<T>(prefix: seq<T>, all: seq<T>)
    requires prefix <= all
    ensures |prefix| <= |all| && all[..|prefix|] == prefix
  {
  }

  /** A key of `execution_times[algorithm]`: Python keeps `100000` and `"100000"`
      apart. */
  datatype Key = IntKey(n: int) | StrKey(s: string)

  /** `execution_times`: algorithm name to key to duration in seconds. */
  type Durations = map<string, map<Key, real>>

  /** `{alg: {} for alg in algorithms}`. */
  function NoDurations(algorithms: seq<string>): (d: Durations)
    ensures forall a :: a in algorithms <==> a in d
    ensures forall a :: a in d ==> d[a] == map[]
  {
    map a | a in algorithms :: map[]
  }

  /** `execution_times[algorithm].get(key, 'N/A')`. */
  function Lookup(d: Durations, algorithm: string, key: Key): Cell
    requires algorithm in d
  {
    if key in d[algorithm] then Num(d[algorithm][key]) else Str("N/A")
  }

  /** `execution_times[algorithm][key] = seconds`. */
  function Record(d: Durations, algorithm: string, key: Key, seconds: real): (r: Durations)
    requires algorithm in d
    ensures r.Keys == d.Keys
    ensures Lookup(r, algorithm, key) == Num(seconds)
    ensures forall a, k :: a in d && (a != algorithm || k != key) ==> Lookup(r, a, k) == Lookup(d, a, k)
  {
    d[algorithm := d[algorithm][key := seconds]]
  }

  /** `[first] + [execution_times[alg].get(key, 'N/A') for alg in algorithms]`. */
  function TimeRow(d: Durations, algorithms: seq<string>, first: Cell, key: Key): (r: Row)
    requires forall a :: a in algorithms ==> a in d
    ensures |r| == |algorithms| + 1 && r[0] == first
    ensures forall i :: 0 <= i < |algorithms| ==> r[i + 1] == Lookup(d, algorithms[i], key)
  {
    [first] + seq(|algorithms|, i requires 0 <= i < |algorithms| => Lookup(d, algorithms[i], key))
  }

  /** The log after `open(name, 'a')` and the header check. */
  function WithHeader(content: seq<Row>, header: Row): seq<Row> {
    if content == [] then [header] else content
  }

  /** A log only grows, and keeps its header once when it had it once. */
  predicate Kept(before: seq<Row>, after: seq<Row>, header: Row) {
    && before <= after
    && (HeaderOnce(before, header) ==> HeaderOnce(after, header))
  }

  lemma KeptTransitive(a: seq<Row>, b: seq<Row>, c: seq<Row>, header: Row)
    requires Kept(a, b, header) && Kept(b, c, header)
    ensures Kept(a, c, header)
  {
  }

  /** The file every monitor writes its durations to. */
  const TimeLog: string := "measurement_log_time.csv"

  /** The per-algorithm sample log. */
  function LogOf(algorithm: string): string {
    "measurement_log_" + algorithm + ".csv"
  }

  lemma LogOfInjective(a: string, b: string)
    requires LogOf(a) == LogOf(b)
    ensures a == b
  {
    assert LogOf(a)[16..16 + |a|] == a;
    assert LogOf(b)[16..16 + |b|] == b;
  }

  /** Only an algorithm called `time` would write its samples to the time log. */
  lemma LogsApart(algorithm: string)
    requires |algorithm| != 4
    ensures LogOf(algorithm) != TimeLog
  {
  }

  /** The content of a file, empty when it does not exist. */
  function ContentOf(files: map<string, seq<Row>>, name: string): seq<Row> {
    if name in files then files[name] else []
  }

  /** The per-algorithm logs only grow and keep their header once. */
  predicate LogsKept(before: map<string, seq<Row>>, after: map<string, seq<Row>>, algorithms: seq<string>, header: Row) {
    forall a :: a in algorithms ==> Kept(ContentOf(before, LogOf(a)), ContentOf(after, LogOf(a)), header)
  }

  lemma LogsKeptTransitive(a: map<string, seq<Row>>, b: map<string, seq<Row>>, c: map<string, seq<Row>>,
                           algorithms: seq<string>, header: Row)
    requires LogsKept(a, b, algorithms, header) && LogsKept(b, c, algorithms, header)
    ensures LogsKept(a, c, algorithms, header)
  {
    forall l | l in algorithms {
      KeptTransitive(ContentOf(a, LogOf(l)), ContentOf(b, LogOf(l)), ContentOf(c, LogOf(l)), header);
    }
  }

  /** Writing the time log keeps the algorithm logs. */
  lemma TimeLogApart(before: map<string, seq<Row>>, after: map<string, seq<Row>>, content: seq<Row>,
                     algorithms: seq<string>, header: Row)
    requires forall a :: a in algorithms ==> |a| != 4
    requires after == before[TimeLog := content]
    ensures LogsKept(before, after, algorithms, header)
  {
    forall a | a in algorithms {
      LogsApart(a);
    }
  }

  /** A measurement that adds the header to an empty log and then rows that are
      not the header keeps the algorithm logs, and leaves the time log alone. */
  lemma MeasureKeeps(before: map<string, seq<Row>>, after: map<string, seq<Row>>, algorithm: string, rows: seq<Row>,
                     algorithms: seq<string>, header: Row)
    requires |algorithm| != 4
    requires forall j :: 0 <= j < |rows| ==> rows[j] != header
    requires after == before[LogOf(algorithm) := WithHeader(ContentOf(before, LogOf(algorithm)), header) + rows]
    ensures LogsKept(before, after, algorithms, header)
    ensures TimeLog in before ==> TimeLog in after && after[TimeLog] == before[TimeLog]
  {
    LogsApart(algorithm);
    HeaderThenRows(ContentOf(before, LogOf(algorithm)), header, rows);
    forall a | a in algorithms && a != algorithm ensures LogOf(a) != LogOf(algorithm) {
      if LogOf(a) == LogOf(algorithm) {
        LogOfInjective(a, algorithm);
      }
    }
  }

  /** The header rule followed by rows that are not the header keeps a log. */
  lemma HeaderThenRows(content: seq<Row>, header: Row, rows: seq<Row>)
    requires forall j :: 0 <= j < |rows| ==> rows[j] != header
    ensures Kept(content, WithHeader(content, header) + rows, header)
  {
    if content == [] {
      HeaderOnceAppend([header], header, rows);
    } else {
      if HeaderOnce(content, header) {
        HeaderOnceAppend(content, header, rows);
      }
    }
  }

  /** One measurement's writes to its algorithm's log: the header when the log
      is empty, then the sampler's rows. */
  datatype Run = Run(algorithm: string, rows: seq<Row>)

  /** The files after the runs, in order. */
  function Logged(files: map<string, seq<Row>>, header: Row, runs: seq<Run>): map<string, seq<Row>> {
    if runs == [] then files
    else
      var before := Logged(files, header, runs[..|runs| - 1]);
      var log := LogOf(runs[|runs| - 1].algorithm);
      before[log := WithHeader(ContentOf(before, log), header) + runs[|runs| - 1].rows]
  }

  lemma LoggedSnoc(files: map<string, seq<Row>>, header: Row, runs: seq<Run>, r: Run)
    ensures var before := Logged(files, header, runs);
      Logged(files, header, runs + [r])
      == before[LogOf(r.algorithm) := WithHeader(ContentOf(before, LogOf(r.algorithm)), header) + r.rows]
  {
    assert (runs + [r])[..|runs|] == runs;
  }

  /** Running `more` after `runs` is running `runs + more`. */
  lemma {:induction false} LoggedAppend(files: map<string, seq<Row>>, header: Row, runs: seq<Run>, more: seq<Run>)
    ensures Logged(Logged(files, header, runs), header, more) == Logged(files, header, runs + more)
    decreases |more|
  {
    if more != [] {
      var init, last := more[..|more| - 1], more[|more| - 1];
      var g := Logged(files, header, runs);
      LoggedAppend(files, header, runs, init);
      assert more == init + [last];
      assert runs + more == (runs + init) + [last];
      LoggedSnoc(g, header, init, last);
      LoggedSnoc(files, header, runs + init, last);
      assert Logged(g, header, init) == Logged(files, header, runs + init);
    } else {
      assert runs + more == runs;
    }
  }

  /** The rows the runs of `algorithm` write, in order. */
  function RowsOf(runs: seq<Run>, algorithm: string): seq<Row> {
    if runs == [] then []
    else RowsOf(runs[..|runs| - 1], algorithm)
         + (if runs[|runs| - 1].algorithm == algorithm then runs[|runs| - 1].rows else [])
  }

  predicate Ran(runs: seq<Run>, algorithm: string) {
    exists i :: 0 <= i < |runs| && runs[i].algorithm == algorithm
  }

  lemma {:induction false} RowsOfAppend(runs: seq<Run>, more: seq<Run>, algorithm: string)
    ensures RowsOf(runs + more, algorithm) == RowsOf(runs, algorithm) + RowsOf(more, algorithm)
    decreases |more|
  {
    if more == [] {
      assert runs + more == runs;
    } else {
      var init, last := more[..|more| - 1], more[|more| - 1];
      RowsOfAppend(runs, init, algorithm);
      assert (runs + more)[..|runs + more| - 1] == runs + init;
    }
  }

  lemma RanAppend(runs: seq<Run>, more: seq<Run>, algorithm: string)
    ensures Ran(runs + more, algorithm) <==> Ran(runs, algorithm) || Ran(more, algorithm)
  {
    if Ran(runs + more, algorithm) {
      var i :| 0 <= i < |runs + more| && (runs + more)[i].algorithm == algorithm;
      if i < |runs| {
        assert runs[i].algorithm == algorithm;
      } else {
        assert more[i - |runs|].algorithm == algorithm;
      }
    }
    if Ran(more, algorithm) {
      var i :| 0 <= i < |more| && more[i].algorithm == algorithm;
      assert (runs + more)[|runs| + i].algorithm == algorithm;
    }
    if Ran(runs, algorithm) {
      var i :| 0 <= i < |runs| && runs[i].algorithm == algorithm;
      assert (runs + more)[i].algorithm == algorithm;
    }
  }

  /** An algorithm's log after the runs: as it was when the algorithm never ran,
      otherwise the header rule applied once followed by the rows of its runs in
      order. */
  lemma {:induction false} LoggedLog(files: map<string, seq<Row>>, header: Row, runs: seq<Run>, algorithm: string)
    ensures ContentOf(Logged(files, header, runs), LogOf(algorithm))
      == if Ran(runs, algorithm) then WithHeader(ContentOf(files, LogOf(algorithm)), header) + RowsOf(runs, algorithm)
         else ContentOf(files, LogOf(algorithm))
    decreases |runs|
  {
    if runs != [] {
      var init, last := runs[..|runs| - 1], runs[|runs| - 1];
      LoggedLog(files, header, init, algorithm);
      assert runs == init + [last];
      RanSnoc(init, last, algorithm);
      var before := Logged(files, header, init);
      var c := ContentOf(files, LogOf(algorithm));
      if last.algorithm == algorithm {
        if Ran(init, algorithm) {
          assert ContentOf(before, LogOf(algorithm)) == WithHeader(c, header) + RowsOf(init, algorithm);
          assert WithHeader(c, header) != [];
        } else {
          RowsOfNone(init, algorithm);
        }
      } else {
        if LogOf(last.algorithm) == LogOf(algorithm) {
          LogOfInjective(last.algorithm, algorithm);
        }
        assert ContentOf(Logged(files, header, runs), LogOf(algorithm)) == ContentOf(before, LogOf(algorithm));
      }
    }
  }

  lemma RanSnoc(runs: seq<Run>, last: Run, algorithm: string)
    ensures Ran(runs + [last], algorithm) <==> Ran(runs, algorithm) || last.algorithm == algorithm
  {
    if Ran(runs, algorithm) {
      var i :| 0 <= i < |runs| && runs[i].algorithm == algorithm;
      assert (runs + [last])[i].algorithm == algorithm;
    }
    assert (runs + [last])[|runs|] == last;
  }

  lemma {:induction false} RowsOfNone(runs: seq<Run>, algorithm: string)
    requires !Ran(runs, algorithm)
    ensures RowsOf(runs, algorithm) == []
    decreases |runs|
  {
    if runs != [] {
      var init := runs[..|runs| - 1];
      RowsOfNone(init, algorithm);
      assert runs[|runs| - 1].algorithm != algorithm;
    }
  }

  /** The rows of an algorithm that ran exactly once are those of its run. */
  lemma {:induction false} RowsOfUnique(runs: seq<Run>, k: nat)
    requires k < |runs|
    requires forall i :: 0 <= i < |runs| && i != k ==> runs[i].algorithm != runs[k].algorithm
    ensures RowsOf(runs, runs[k].algorithm) == runs[k].rows
    decreases |runs|
  {
    var init := runs[..|runs| - 1];
    if k == |runs| - 1 {
      assert forall i :: 0 <= i < |init| ==> init[i] == runs[i];
      RowsOfNone(init, runs[k].algorithm);
    } else {
      assert forall i :: 0 <= i < |init| ==> init[i] == runs[i];
      RowsOfUnique(init, k);
    }
  }

  /** A file that is no run's log is left as it was. */
  lemma {:induction false} LoggedOther(files: map<string, seq<Row>>, header: Row, runs: seq<Run>, name: string)
    requires forall i :: 0 <= i < |runs| ==> LogOf(runs[i].algorithm) != name
    ensures name in Logged(files, header, runs) <==> name in files
    ensures name in files ==> Logged(files, header, runs)[name] == files[name]
    decreases |runs|
  {
    if runs != [] {
      LoggedOther(files, header, runs[..|runs| - 1], name);
    }
  }

  /** Every file but the time log and the algorithms' logs is as it was. */
  predicate OthersKept(before: map<string, seq<Row>>, after: map<string, seq<Row>>, algorithms: seq<string>) {
    forall f {:trigger before[f]} :: f in before && f != TimeLog && (forall a :: a in algorithms ==> LogOf(a) != f) ==>
      f in after && after[f] == before[f]
  }

  /** Runs of the given algorithms, and then a write to the time log, leave
      every other file as it was. */
  lemma LoggedFrame(files: map<string, seq<Row>>, header: Row, runs: seq<Run>, algorithms: seq<string>, content: seq<Row>)
    requires forall i :: 0 <= i < |runs| ==> runs[i].algorithm in algorithms
    ensures OthersKept(files, Logged(files, header, runs), algorithms)
    ensures OthersKept(files, Logged(files, header, runs)[TimeLog := content], algorithms)
  {
    forall f | f in files && f != TimeLog && (forall a :: a in algorithms ==> LogOf(a) != f)
      ensures f in Logged(files, header, runs) && Logged(files, header, runs)[f] == files[f]
    {
      LoggedOther(files, header, runs, f);
    }
  }

  /** A write to the time log keeps every other file. */
  lemma OthersKeptTimeLog(before: map<string, seq<Row>>, after: map<string, seq<Row>>, content: seq<Row>,
                          algorithms: seq<string>)
    requires OthersKept(before, after, algorithms)
    ensures OthersKept(before, after[TimeLog := content], algorithms)
  {
  }

  /** No run is of an algorithm called `time`, whose log would be the time log. */
  predicate Timeless(runs: seq<Run>) {
    forall i :: 0 <= i < |runs| ==> |runs[i].algorithm| != 4
  }

  /** Runs of algorithms not called `time` leave the time log alone, so they
      commute with writing it. */
  lemma {:induction false} LoggedTimeLog(files: map<string, seq<Row>>, header: Row, runs: seq<Run>, content: seq<Row>)
    requires Timeless(runs)
    ensures Logged(files[TimeLog := content], header, runs) == Logged(files, header, runs)[TimeLog := content]
    decreases |runs|
  {
    if runs != [] {
      var init, last := runs[..|runs| - 1], runs[|runs| - 1];
      LoggedTimeLog(files, header, init, content);
      LogsApart(last.algorithm);
      var before := Logged(files, header, init);
      var log := LogOf(last.algorithm);
      assert ContentOf(before[TimeLog := content], log) == ContentOf(before, log);
      var v := WithHeader(ContentOf(before, log), header) + last.rows;
      assert before[TimeLog := content][log := v] == before[log := v][TimeLog := content];
    }
  }

  /** Runs after the time log was written are the runs appended, then the time
      log written. */
  lemma LoggedAfterTimeLog(files: map<string, seq<Row>>, header: Row, done: seq<Run>, more: seq<Run>, content: seq<Row>)
    requires Timeless(more)
    ensures Logged(Logged(files, header, done)[TimeLog := content], header, more)
      == Logged(files, header, done + more)[TimeLog := content]
  {
    LoggedTimeLog(Logged(files, header, done), header, more, content);
    LoggedAppend(files, header, done, more);
  }

  /** Runs between two writes of the time log are the runs appended, then the
      second write. */
  lemma LoggedBetweenTimeLog(files: map<string, seq<Row>>, header: Row, done: seq<Run>, more: seq<Run>, all: seq<Run>,
                             first: seq<Row>, second: seq<Row>)
    requires Timeless(more) && all == done + more
    ensures Logged(Logged(files, header, done)[TimeLog := first], header, more)[TimeLog := second]
      == Logged(files, header, all)[TimeLog := second]
  {
    LoggedAfterTimeLog(files, header, done, more, first);
    Overwrite(Logged(files, header, all), TimeLog, first, second);
  }

  lemma ConcatAssociates<T>(a: seq<T>, b: seq<T>, c: seq<T>)
    ensures a + b + c == a + (b + c)
  {
  }

  /** Writing a file twice keeps the second content. */
  lemma Overwrite<V>(files: map<string, V>, name: string, first: V, second: V)
    ensures files[name := first][name := second] == files[name := second]
  {
  }

  /** No run writes the header as one of its rows. */
  predicate HeaderFree(runs: seq<Run>, header: Row) {
    forall i, j :: 0 <= i < |runs| && 0 <= j < |runs[i].rows| ==> runs[i].rows[j] != header
  }

  lemma HeaderFreeAppend(runs: seq<Run>, more: seq<Run>, header: Row)
    requires HeaderFree(runs, header) && HeaderFree(more, header)
    ensures HeaderFree(runs + more, header)
  {
    forall i, j | 0 <= i < |runs + more| && 0 <= j < |(runs + more)[i].rows|
      ensures (runs + more)[i].rows[j] != header
    {
      if i >= |runs| {
        assert (runs + more)[i] == more[i - |runs|];
      }
    }
  }

  /** Runs whose rows are not the header keep every algorithm log and leave the
      time log alone. */
  lemma {:induction false} LoggedKeeps(files: map<string, seq<Row>>, header: Row, runs: seq<Run>, algorithms: seq<string>)
    requires Timeless(runs)
    requires HeaderFree(runs, header)
    ensures LogsKept(files, Logged(files, header, runs), algorithms, header)
    ensures TimeLog in files ==> TimeLog in Logged(files, header, runs) && Logged(files, header, runs)[TimeLog] == files[TimeLog]
    decreases |runs|
  {
    if runs != [] {
      var init, last := runs[..|runs| - 1], runs[|runs| - 1];
      LoggedKeeps(files, header, init, algorithms);
      var before := Logged(files, header, init);
      MeasureKeeps(before, Logged(files, header, runs), last.algorithm, last.rows, algorithms, header);
      LogsKeptTransitive(files, before, Logged(files, header, runs), algorithms, header);
    }
  }

  /** The number of steps that end as `done` before the first that does not:
      the point where a sweep stops. */
  function FirstStop<T(==)>(os: seq<T>, done: T): (n: nat)
    ensures n <= |os|
    ensures forall i :: 0 <= i < n ==> os[i] == done
    ensures n < |os| ==> os[n] != done
  {
    if os == [] || os[0] != done then 0 else 1 + FirstStop(os[1..], done)
  }

  /** How a sweep ends: as `done` when every step does, otherwise as the first
      step that does not. */
  function OutcomeOfAll<T(==)>(os: seq<T>, done: T): (r: T)
    ensures r == done <==> forall i :: 0 <= i < |os| ==> os[i] == done
    ensures r != done ==> r == os[FirstStop(os, done)]
  {
    var n := FirstStop(os, done);
    if n == |os| then done else os[n]
  }

  /** The first step that does not end as `done` is the `k`-th. */
  lemma FirstStopAt<T>(os: seq<T>, done: T, k: nat)
    requires k <= |os|
    requires forall i :: 0 <= i < k ==> os[i] == done
    requires k < |os| ==> os[k] != done
    ensures FirstStop(os, done) == k
  {
  }

  /** A step at `i` that ends as `done`, with none stopping before it: the first
      stop is later. */
  lemma CompletedPast<T>(os: seq<T>, done: T, i: nat)
    requires i < |os| && i <= FirstStop(os, done) && os[i] == done
    ensures i < FirstStop(os, done)
  {
  }
}
