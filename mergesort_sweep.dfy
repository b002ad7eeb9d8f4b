/** What the two mergesort monitors share: `measure` (launch, wait for the warm-up
    line, add the header to an empty log, sample, store the duration under the
    parameter's string), and the loop of `main` that measures every algorithm for
    each parameter value and appends the durations to the time log. The two
    monitors differ only in the parameter (the recursion depth or the list
    length), the command they launch and the header's first column. */
module MergesortSweep {
  import opened Base
  import opened Text
  import opened Csv
  import opened Sweep
  import opened ProcessSampler
  import Readiness
  import Launch

  /** `ALGORITHMS`, in the order the sweep runs and the time log lists them. */
  const Algorithms: seq<string> := ["platform", "virtual", "coroutines", "goroutines"]

  lemma AlgorithmsDistinct()
    ensures forall i, j :: 0 <= i < j < |Algorithms| ==> Algorithms[i] != Algorithms[j]
  {
    assert Algorithms[0][0] == 'p' && Algorithms[1][0] == 'v' && Algorithms[2][0] == 'c' && Algorithms[3][0] == 'g';
  }

  /** What one measurement sees: the program's output lines, what psutil answers
      when attaching and on every poll, the number of cores, and the clock before
      and after sampling. */
  datatype Observation = Observation(lines: seq<string>, attach: Attach, polls: seq<ProcessPoll>,
                                     cores: Cores, start: real, end: real)

  /** A measurement, and the sweep, either completes, waits forever for the
      warm-up line, or is still sampling when the given polls run out. */
  datatype Outcome = Completed | Hangs | Unfinished

  function Duration(obs: Observation): real {
    obs.end - obs.start
  }

  /** `measure(algorithm, param, execution_times)` once the program runs: read
      its output until the warm-up line; then the log gets its header if empty and
      the sampler's rows, keyed by the parameter string, and the duration is
      stored under that string. Without the warm-up line the loop reads empty
      lines for ever; when the polls run out first, the sampler is still running
      and no duration is stored. */
  method Measure(dir: Directory, algorithm: string, param: string, header: Row, obs: Observation, durations: Durations)
    returns (outcome: Outcome, after: Durations)
    requires algorithm in durations
    modifies dir
    ensures outcome == Hangs <==> Readiness.FirstWith(obs.lines, Readiness.WarmUpMarker).None?
    ensures outcome == Completed <==>
      Readiness.FirstWith(obs.lines, Readiness.WarmUpMarker).Some? && EndOf(obs.polls, obs.attach) == Stopped
    ensures outcome == Hangs ==> dir.files == old(dir.files)
    ensures outcome != Completed ==> after == durations
    ensures outcome != Hangs ==> dir.files == old(dir.files)[LogOf(algorithm) :=
      WithHeader(ContentOf(old(dir.files), LogOf(algorithm)), header) + Rows(obs.polls, Str(param), obs.attach, obs.cores)]
    ensures outcome == Completed ==> after == Record(durations, algorithm, StrKey(param), Duration(obs))
  {
    var wait := Readiness.AwaitMarker(obs.lines, Readiness.WarmUpMarker);
    if wait.Hangs? {
      return Hangs, durations;
    }
    var log := LogOf(algorithm);
    dir.AppendHeaderIfEmpty(log, header);
    var end := RecordProcessStats(dir, log, Str(param), obs.attach, obs.polls, obs.cores);
    if end == PollsExhausted {
      return Unfinished, durations;
    }
    outcome := Completed;
    after := Record(durations, algorithm, StrKey(param), obs.end - obs.start);
  }

  /** The sampler's rows start with the key, so they are never a header that
      starts with something else. */
  lemma RowsAreNotHeader(polls: seq<ProcessPoll>, key: Cell, attach: Attach, cores: Cores, header: Row)
    requires header != [] && header[0] != key
    ensures forall j :: 0 <= j < |Rows(polls, key, attach, cores)| ==> Rows(polls, key, attach, cores)[j] != header
  {
    if attach.Attached? {
      RowsMeaning(polls, key, attach, cores);
    }
  }

  /** A column name is never the string of a number. */
  lemma NameIsNotNumber(name: string, n: nat)
    requires name != [] && !IsDigit(name[0])
    ensures Str(NatToString(n)) != Str(name)
  {
    assert IsDigit(NatToString(n)[0]);
  }

  /** The time-log row for parameter `p` once every algorithm completed: the
      parameter, then each algorithm's duration. */
  function DurationRow(observe: (string, nat) -> Observation, p: nat): (r: Row)
    ensures |r| == |Algorithms| + 1 && r[0] == Int(p)
    ensures forall i :: 0 <= i < |Algorithms| ==> r[i + 1] == Num(Duration(observe(Algorithms[i], p)))
  {
    [Int(p)] + seq(|Algorithms|, i requires 0 <= i < |Algorithms| => Num(Duration(observe(Algorithms[i], p))))
  }

  function DurationRows(observe: (string, nat) -> Observation, ps: seq<nat>): (r: seq<Row>)
    ensures |r| == |ps|
    ensures forall i :: 0 <= i < |ps| ==> r[i] == DurationRow(observe, ps[i])
  {
    seq(|ps|, i requires 0 <= i < |ps| => DurationRow(observe, ps[i]))
  }

  lemma DurationRowsSnoc(observe: (string, nat) -> Observation, ps: seq<nat>, p: nat)
    ensures DurationRows(observe, ps + [p]) == DurationRows(observe, ps) + [DurationRow(observe, p)]
  {
  }

  /** The commands the sweep launches for parameter `p`, one per algorithm. */
  function Round(launch: (string, nat) -> Launch.Command, p: nat): (r: seq<Launch.Command>)
    ensures |r| == |Algorithms|
    ensures forall k :: 0 <= k < |Algorithms| ==> r[k] == launch(Algorithms[k], p)
  {
    seq(|Algorithms|, k requires 0 <= k < |Algorithms| => launch(Algorithms[k], p))
  }

  /** Every command of the sweep, in order. */
  function Plan(launch: (string, nat) -> Launch.Command, ps: seq<nat>): (r: seq<Launch.Command>)
    ensures |r| == |ps| * |Algorithms|
  {
    if ps == [] then [] else Plan(launch, ps[..|ps| - 1]) + Round(launch, ps[|ps| - 1])
  }

  lemma PlanSnoc(launch: (string, nat) -> Launch.Command, ps: seq<nat>, p: nat)
    ensures Plan(launch, ps + [p]) == Plan(launch, ps) + Round(launch, p)
  {
    assert (ps + [p])[..|ps|] == ps;
  }

  /** The command launched `k`-th for parameter `ps[i]` is the one for algorithm
      `k` and that parameter. */
  lemma {:induction false} PlanAt(launch: (string, nat) -> Launch.Command, ps: seq<nat>, i: nat, k: nat)
    requires i < |ps| && k < |Algorithms|
    ensures Plan(launch, ps)[i * |Algorithms| + k] == launch(Algorithms[k], ps[i])
  {
    var n := |ps| - 1;
    if i < n {
      PlanAt(launch, ps[..n], i, k);
    }
  }

  /** What measuring `algorithm` with parameter `p` writes to its log: the
      sampler's rows, keyed by the parameter's string. */
  function RunOf(observe: (string, nat) -> Observation, algorithm: string, p: nat): Run {
    var obs := observe(algorithm, p);
    Run(algorithm, Rows(obs.polls, Str(NatToString(p)), obs.attach, obs.cores))
  }

  /** The runs of one round, in the order of `Algorithms`. */
  function RoundRuns(observe: (string, nat) -> Observation, p: nat): (r: seq<Run>)
    ensures |r| == |Algorithms|
    ensures forall k :: 0 <= k < |Algorithms| ==> r[k] == RunOf(observe, Algorithms[k], p)
  {
    seq(|Algorithms|, k requires 0 <= k < |Algorithms| => RunOf(observe, Algorithms[k], p))
  }

  /** The runs of the whole sweep, round after round. */
  function SweepRuns(observe: (string, nat) -> Observation, ps: seq<nat>): (r: seq<Run>)
    ensures |r| == |ps| * |Algorithms|
  {
    if ps == [] then [] else SweepRuns(observe, ps[..|ps| - 1]) + RoundRuns(observe, ps[|ps| - 1])
  }

  /** How many of the launched measurements wrote to their log: all of them,
      except a last one that waits for ever for the warm-up line. */
  function Wrote(outcome: Outcome, launched: nat): (n: nat)
    ensures n == launched || (outcome == Hangs && n == launched - 1)
  {
    if outcome == Hangs && launched > 0 then launched - 1 else launched
  }

  lemma SweepRunsSnoc(observe: (string, nat) -> Observation, ps: seq<nat>, p: nat)
    ensures SweepRuns(observe, ps + [p]) == SweepRuns(observe, ps) + RoundRuns(observe, p)
  {
    assert (ps + [p])[..|ps|] == ps;
  }

  lemma SweepRunsTake(observe: (string, nat) -> Observation, ps: seq<nat>, i: nat)
    requires i < |ps|
    ensures SweepRuns(observe, ps[..i + 1]) == SweepRuns(observe, ps[..i]) + RoundRuns(observe, ps[i])
  {
    assert ps[..i + 1][..i] == ps[..i];
  }

  lemma DurationRowsTake(observe: (string, nat) -> Observation, ps: seq<nat>, i: nat)
    requires i < |ps|
    ensures DurationRows(observe, ps[..i + 1]) == DurationRows(observe, ps[..i]) + [DurationRow(observe, ps[i])]
  {
    TakeOneMore(ps, i);
    DurationRowsSnoc(observe, ps[..i], ps[i]);
  }

  /** The runs of the rounds before `ps[i]` and of that round begin the runs of
      the sweep. */
  lemma {:induction false} SweepRunsRound(observe: (string, nat) -> Observation, ps: seq<nat>, i: nat)
    requires i < |ps|
    ensures SweepRuns(observe, ps[..i]) + RoundRuns(observe, ps[i]) <= SweepRuns(observe, ps)
    decreases |ps|
  {
    var init := ps[..|ps| - 1];
    if i < |init| {
      SweepRunsRound(observe, init, i);
      assert init[..i] == ps[..i];
    }
  }

  /** So do those of a round cut short after `w` runs. */
  lemma SweepRunsCut(observe: (string, nat) -> Observation, ps: seq<nat>, i: nat, w: nat)
    requires i < |ps| && w <= |Algorithms|
    ensures SweepRuns(observe, ps[..i]) + RoundRuns(observe, ps[i])[..w] <= SweepRuns(observe, ps)
  {
    SweepRunsRound(observe, ps, i);
    PrefixCut(SweepRuns(observe, ps[..i]), RoundRuns(observe, ps[i]), w, SweepRuns(observe, ps));
  }

  /** A round whose parameter is not the header's first column writes no header
      row, and keeps every log. */
  lemma RoundKeeps(files: map<string, seq<Row>>, observe: (string, nat) -> Observation, p: nat, n: nat, header: Row)
    requires n <= |Algorithms|
    requires header != [] && header[0] != Str(NatToString(p))
    ensures HeaderFree(RoundRuns(observe, p), header)
    ensures LogsKept(files, Logged(files, header, RoundRuns(observe, p)[..n]), Algorithms, header)
    ensures TimeLog in files ==>
      TimeLog in Logged(files, header, RoundRuns(observe, p)[..n]) && Logged(files, header, RoundRuns(observe, p)[..n])[TimeLog] == files[TimeLog]
    ensures OthersKept(files, Logged(files, header, RoundRuns(observe, p)[..n]), Algorithms)
  {
    var round := RoundRuns(observe, p);
    forall k | 0 <= k < |round| ensures forall j :: 0 <= j < |round[k].rows| ==> round[k].rows[j] != header {
      var obs := observe(Algorithms[k], p);
      RowsAreNotHeader(obs.polls, Str(NatToString(p)), obs.attach, obs.cores, header);
    }
    RoundRunsTimeless(observe, p, n);
    assert HeaderFree(round[..n], header);
    LoggedKeeps(files, header, round[..n], Algorithms);
    LoggedFrame(files, header, round[..n], Algorithms, []);
  }

  /** A sweep whose parameters are not the header's first column writes no header
      row. */
  lemma {:induction false} SweepHeaderFree(observe: (string, nat) -> Observation, ps: seq<nat>, header: Row)
    requires header != [] && forall i :: 0 <= i < |ps| ==> header[0] != Str(NatToString(ps[i]))
    ensures HeaderFree(SweepRuns(observe, ps), header)
    decreases |ps|
  {
    if ps != [] {
      var init := ps[..|ps| - 1];
      SweepHeaderFree(observe, init, header);
      RoundKeeps(map[], observe, ps[|ps| - 1], 0, header);
      HeaderFreeAppend(SweepRuns(observe, init), RoundRuns(observe, ps[|ps| - 1]), header);
    }
  }

  /** Any part of the sweep, with the time log rewritten, keeps every log. */
  lemma SweepKeeps(files: map<string, seq<Row>>, observe: (string, nat) -> Observation, ps: seq<nat>, n: nat,
                   header: Row, content: seq<Row>)
    requires n <= |SweepRuns(observe, ps)|
    requires header != [] && forall i :: 0 <= i < |ps| ==> header[0] != Str(NatToString(ps[i]))
    ensures LogsKept(files, Logged(files, header, SweepRuns(observe, ps)[..n])[TimeLog := content], Algorithms, header)
    ensures OthersKept(files, Logged(files, header, SweepRuns(observe, ps)[..n])[TimeLog := content], Algorithms)
  {
    var runs := SweepRuns(observe, ps)[..n];
    SweepHeaderFree(observe, ps, header);
    SweepRunsAlgorithms(observe, ps);
    assert HeaderFree(runs, header);
    assert Timeless(runs);
    LoggedKeeps(files, header, runs, Algorithms);
    TimeLogApart(Logged(files, header, runs), Logged(files, header, runs)[TimeLog := content], content, Algorithms, header);
    LogsKeptTransitive(files, Logged(files, header, runs), Logged(files, header, runs)[TimeLog := content], Algorithms, header);
    LoggedFrame(files, header, runs, Algorithms, content);
  }

  /** Before the first round nothing is written. */
  lemma SweepStart(files: map<string, seq<Row>>, observe: (string, nat) -> Observation, ps: seq<nat>, header: Row)
    requires TimeLog in files
    ensures Logged(files, header, SweepRuns(observe, ps[..0]))[TimeLog := files[TimeLog] + DurationRows(observe, ps[..0])] == files
  {
    assert ps[..0] == [];
    assert files[TimeLog] + [] == files[TimeLog];
  }

  /** Every run of the sweep is one of `Algorithms`. */
  lemma {:induction false} SweepRunsAlgorithms(observe: (string, nat) -> Observation, ps: seq<nat>)
    ensures forall i :: 0 <= i < |SweepRuns(observe, ps)| ==> SweepRuns(observe, ps)[i].algorithm in Algorithms
    decreases |ps|
  {
    if ps != [] {
      SweepRunsAlgorithms(observe, ps[..|ps| - 1]);
    }
  }

  /** Measuring algorithm `j` of a round adds the next run. */
  lemma RoundStep(files: map<string, seq<Row>>, before: map<string, seq<Row>>, after: map<string, seq<Row>>,
                  observe: (string, nat) -> Observation, p: nat, j: nat, header: Row)
    requires j < |Algorithms|
    requires before == Logged(files, header, RoundRuns(observe, p)[..j])
    requires after == before[LogOf(Algorithms[j]) :=
      WithHeader(ContentOf(before, LogOf(Algorithms[j])), header) + RunOf(observe, Algorithms[j], p).rows]
    ensures after == Logged(files, header, RoundRuns(observe, p)[..j + 1])
  {
    var rs := RoundRuns(observe, p);
    assert rs[..j + 1] == rs[..j] + [rs[j]];
    LoggedSnoc(files, header, rs[..j], rs[j]);
  }

  /** A completed round for `ps[i]` adds its runs and its time-log row. */
  lemma ParamStep(files: map<string, seq<Row>>, mid: map<string, seq<Row>>, after: map<string, seq<Row>>,
                  observe: (string, nat) -> Observation, ps: seq<nat>, i: nat, header: Row)
    requires i < |ps| && TimeLog in files
    requires mid == Logged(files, header, SweepRuns(observe, ps[..i]))[TimeLog := files[TimeLog] + DurationRows(observe, ps[..i])]
    requires after == Logged(mid, header, RoundRuns(observe, ps[i]))[TimeLog := mid[TimeLog] + [DurationRow(observe, ps[i])]]
    ensures after == Logged(files, header, SweepRuns(observe, ps[..i + 1]))
                       [TimeLog := files[TimeLog] + DurationRows(observe, ps[..i + 1])]
  {
    var done, round := SweepRuns(observe, ps[..i]), RoundRuns(observe, ps[i]);
    var log := files[TimeLog] + DurationRows(observe, ps[..i]);
    RoundRunsTimeless(observe, ps[i], 0);
    SweepRunsTake(observe, ps, i);
    DurationRowsTake(observe, ps, i);
    ConcatAssociates(files[TimeLog], DurationRows(observe, ps[..i]), [DurationRow(observe, ps[i])]);
    LoggedBetweenTimeLog(files, header, done, round, SweepRuns(observe, ps[..i + 1]), log, log + [DurationRow(observe, ps[i])]);
  }

  /** No algorithm is called `time`. */
  lemma RoundRunsTimeless(observe: (string, nat) -> Observation, p: nat, n: nat)
    requires n <= |Algorithms|
    ensures Timeless(RoundRuns(observe, p)[..n])
    ensures Timeless(RoundRuns(observe, p))
  {
    forall i | 0 <= i < n ensures |RoundRuns(observe, p)[..n][i].algorithm| != 4 {
      assert RoundRuns(observe, p)[..n][i].algorithm == Algorithms[i];
    }
  }

  /** A round for `ps[i]` cut short after `n` launches adds the runs that wrote,
      leaves the time log, and keeps every log. */
  lemma ParamCutShort(files: map<string, seq<Row>>, mid: map<string, seq<Row>>, after: map<string, seq<Row>>,
                      observe: (string, nat) -> Observation, ps: seq<nat>, i: nat, header: Row,
                      outcome: Outcome, n: nat, launched: nat)
    requires i < |ps| && 0 < n <= |Algorithms| && TimeLog in files
    requires header != [] && forall k :: 0 <= k < |ps| ==> header[0] != Str(NatToString(ps[k]))
    requires launched == |SweepRuns(observe, ps[..i])| + n
    requires mid == Logged(files, header, SweepRuns(observe, ps[..i]))[TimeLog := files[TimeLog] + DurationRows(observe, ps[..i])]
    requires after == Logged(mid, header, RoundRuns(observe, ps[i])[..Wrote(outcome, n)])
    ensures Wrote(outcome, launched) <= |SweepRuns(observe, ps)|
    ensures after == Logged(files, header, SweepRuns(observe, ps)[..Wrote(outcome, launched)])
                       [TimeLog := files[TimeLog] + DurationRows(observe, ps[..i])]
    ensures LogsKept(files, after, Algorithms, header)
    ensures OthersKept(files, after, Algorithms)
  {
    var w := Wrote(outcome, n);
    var log := files[TimeLog] + DurationRows(observe, ps[..i]);
    var cut := SweepRuns(observe, ps[..i]) + RoundRuns(observe, ps[i])[..w];
    RoundRunsTimeless(observe, ps[i], w);
    LoggedAfterTimeLog(files, header, SweepRuns(observe, ps[..i]), RoundRuns(observe, ps[i])[..w], log);
    SweepRunsCut(observe, ps, i, w);
    PrefixTake(cut, SweepRuns(observe, ps));
    assert Wrote(outcome, launched) == |cut|;
    SweepKeeps(files, observe, ps, Wrote(outcome, launched), header, log);
  }

  /** A sweep through every parameter value wrote all its runs and keeps every
      log. */
  lemma SweepFinish(files: map<string, seq<Row>>, after: map<string, seq<Row>>, observe: (string, nat) -> Observation,
                    ps: seq<nat>, header: Row, launched: nat)
    requires TimeLog in files
    requires header != [] && forall k :: 0 <= k < |ps| ==> header[0] != Str(NatToString(ps[k]))
    requires launched == |SweepRuns(observe, ps[..|ps|])|
    requires after == Logged(files, header, SweepRuns(observe, ps[..|ps|]))[TimeLog := files[TimeLog] + DurationRows(observe, ps[..|ps|])]
    ensures Wrote(Completed, launched) <= |SweepRuns(observe, ps)|
    ensures after == Logged(files, header, SweepRuns(observe, ps)[..Wrote(Completed, launched)])
                       [TimeLog := files[TimeLog] + DurationRows(observe, ps[..|ps|])]
    ensures LogsKept(files, after, Algorithms, header)
    ensures OthersKept(files, after, Algorithms)
  {
    TakeAll(ps);
    TakeAll(SweepRuns(observe, ps));
    SweepKeeps(files, observe, ps, launched, header, files[TimeLog] + DurationRows(observe, ps[..|ps|]));
  }

  /** The rows measuring `algorithm` writes for each parameter value, in order. */
  function AlgorithmRows(observe: (string, nat) -> Observation, algorithm: string, ps: seq<nat>): seq<Row> {
    if ps == [] then [] else AlgorithmRows(observe, algorithm, ps[..|ps| - 1]) + RunOf(observe, algorithm, ps[|ps| - 1]).rows
  }

  lemma {:induction false} SweepRowsOf(observe: (string, nat) -> Observation, ps: seq<nat>, k: nat)
    requires k < |Algorithms|
    ensures RowsOf(SweepRuns(observe, ps), Algorithms[k]) == AlgorithmRows(observe, Algorithms[k], ps)
    ensures Ran(SweepRuns(observe, ps), Algorithms[k]) <==> ps != []
    decreases |ps|
  {
    if ps != [] {
      var init, round := ps[..|ps| - 1], RoundRuns(observe, ps[|ps| - 1]);
      SweepRowsOf(observe, init, k);
      AlgorithmsDistinct();
      RowsOfUnique(round, k);
      assert Ran(round, Algorithms[k]) by {
        assert round[k].algorithm == Algorithms[k];
      }
      RowsOfAppend(SweepRuns(observe, init), round, Algorithms[k]);
      RanAppend(SweepRuns(observe, init), round, Algorithms[k]);
    }
  }

  /** After a completed sweep, each algorithm's log holds its old content after
      the header rule, then its rows for every parameter value in order; with no
      parameter values it is untouched. */
  lemma SweepLog(files: map<string, seq<Row>>, observe: (string, nat) -> Observation, ps: seq<nat>, header: Row, k: nat)
    requires k < |Algorithms|
    ensures ContentOf(Logged(files, header, SweepRuns(observe, ps)), LogOf(Algorithms[k]))
      == if ps == [] then ContentOf(files, LogOf(Algorithms[k]))
         else WithHeader(ContentOf(files, LogOf(Algorithms[k])), header) + AlgorithmRows(observe, Algorithms[k], ps)
  {
    LoggedLog(files, header, SweepRuns(observe, ps), Algorithms[k]);
    SweepRowsOf(observe, ps, k);
  }

  /** Any part of the sweep leaves every file but the algorithm logs as it was. */
  lemma SweepOther(files: map<string, seq<Row>>, observe: (string, nat) -> Observation, ps: seq<nat>, n: nat,
                   header: Row, name: string)
    requires n <= |SweepRuns(observe, ps)|
    requires forall a :: a in Algorithms ==> LogOf(a) != name
    ensures name in Logged(files, header, SweepRuns(observe, ps)[..n]) <==> name in files
    ensures name in files ==> Logged(files, header, SweepRuns(observe, ps)[..n])[name] == files[name]
  {
    SweepRunsAlgorithms(observe, ps);
    LoggedOther(files, header, SweepRuns(observe, ps)[..n], name);
  }

  /** Any part of the sweep commutes with writing the time log. */
  lemma SweepTimeLog(files: map<string, seq<Row>>, observe: (string, nat) -> Observation, ps: seq<nat>, n: nat,
                     header: Row, content: seq<Row>)
    requires n <= |SweepRuns(observe, ps)|
    ensures Logged(files[TimeLog := content], header, SweepRuns(observe, ps)[..n])
      == Logged(files, header, SweepRuns(observe, ps)[..n])[TimeLog := content]
  {
    SweepRunsAlgorithms(observe, ps);
    LoggedTimeLog(files, header, SweepRuns(observe, ps)[..n], content);
  }

  /** A sweep run after the time log was rewritten with its header alone: the
      runs go to the logs as if the time log had been left alone, and the time
      log holds the header and the rows. */
  lemma SweepRestarted(files: map<string, seq<Row>>, headed: map<string, seq<Row>>, after: map<string, seq<Row>>,
                       observe: (string, nat) -> Observation, ps: seq<nat>, header: Row, timeHeader: Row,
                       w: nat, done: nat)
    requires header != [] && forall k :: 0 <= k < |ps| ==> header[0] != Str(NatToString(ps[k]))
    requires w <= |SweepRuns(observe, ps)| && done <= |ps|
    requires headed == files[TimeLog := [timeHeader]]
    requires after == Logged(headed, header, SweepRuns(observe, ps)[..w])[TimeLog := [timeHeader] + DurationRows(observe, ps[..done])]
    ensures after == Logged(files, header, SweepRuns(observe, ps)[..w])[TimeLog := [timeHeader] + DurationRows(observe, ps[..done])]
    ensures LogsKept(files, after, Algorithms, header)
    ensures OthersKept(files, after, Algorithms)
  {
    var content := [timeHeader] + DurationRows(observe, ps[..done]);
    SweepTimeLog(files, observe, ps, w, header, [timeHeader]);
    Overwrite(Logged(files, header, SweepRuns(observe, ps)[..w]), TimeLog, [timeHeader], content);
    SweepKeeps(files, observe, ps, w, header, content);
  }

  /** The row assembly of `main`: the parameter, then one lookup per algorithm
      under the parameter's string. */
  method TimeRowOf(d: Durations, p: nat) returns (row: Row)
    requires forall a :: a in Algorithms ==> a in d
    ensures row == TimeRow(d, Algorithms, Int(p), StrKey(NatToString(p)))
  {
    row := [Int(p)];
    var j := 0;
    while j < |Algorithms|
      invariant 0 <= j <= |Algorithms|
      invariant |row| == j + 1 && row[0] == Int(p)
      invariant forall k :: 0 <= k < j ==> row[k + 1] == Lookup(d, Algorithms[k], StrKey(NatToString(p)))
    {
      row := row + [Lookup(d, Algorithms[j], StrKey(NatToString(p)))];
      j := j + 1;
    }
  }

  /** The lookups of the measured algorithms give their durations. */
  predicate Measured(d: Durations, observe: (string, nat) -> Observation, p: nat, j: nat)
    requires j <= |Algorithms|
    requires forall a :: a in Algorithms ==> a in d
  {
    forall k :: 0 <= k < j ==> Lookup(d, Algorithms[k], StrKey(NatToString(p))) == Num(Duration(observe(Algorithms[k], p)))
  }

  lemma MeasuredRow(d: Durations, observe: (string, nat) -> Observation, p: nat)
    requires forall a :: a in Algorithms ==> a in d
    requires Measured(d, observe, p, |Algorithms|)
    ensures TimeRow(d, Algorithms, Int(p), StrKey(NatToString(p))) == DurationRow(observe, p)
  {
  }

  lemma MeasuredRecord(d: Durations, observe: (string, nat) -> Observation, p: nat, j: nat)
    requires j < |Algorithms|
    requires forall a :: a in Algorithms ==> a in d
    requires Measured(d, observe, p, j)
    ensures var r := Record(d, Algorithms[j], StrKey(NatToString(p)), Duration(observe(Algorithms[j], p)));
      && (forall a :: a in Algorithms ==> a in r)
      && Measured(r, observe, p, j + 1)
  {
    AlgorithmsDistinct();
  }

  /** One pass of the inner loop of `main`: every algorithm in turn is launched
      and measured with parameter `p`. When all complete, the durations hold each
      algorithm's time under the parameter's string; the time log is not touched
      and the algorithm logs are kept. */
  method MeasureAll(dir: Directory, launch: (string, nat) -> Launch.Command, observe: (string, nat) -> Observation,
                    p: nat, header: Row, durations: Durations)
    returns (outcome: Outcome, after: Durations, launched: seq<Launch.Command>)
    requires header != [] && header[0] != Str(NatToString(p))
    requires forall a :: a in Algorithms ==> a in durations
    modifies dir
    ensures forall a :: a in Algorithms ==> a in after
    ensures outcome == Completed ==> Measured(after, observe, p, |Algorithms|) && launched == Round(launch, p)
    ensures outcome != Completed ==> 0 < |launched| <= |Algorithms| && launched <= Round(launch, p)
    ensures dir.files == Logged(old(dir.files), header, RoundRuns(observe, p)[..Wrote(outcome, |launched|)])
    ensures TimeLog in old(dir.files) ==> TimeLog in dir.files && dir.files[TimeLog] == old(dir.files[TimeLog])
    ensures LogsKept(old(dir.files), dir.files, Algorithms, header)
    ensures OthersKept(old(dir.files), dir.files, Algorithms)
  {
    after := durations;
    launched := [];
    var j := 0;
    while j < |Algorithms|
      invariant 0 <= j <= |Algorithms|
      invariant forall a :: a in Algorithms ==> a in after
      invariant Measured(after, observe, p, j)
      invariant launched == Round(launch, p)[..j] && |launched| == j
      invariant dir.files == Logged(old(dir.files), header, RoundRuns(observe, p)[..j])
    {
      var algorithm := Algorithms[j];
      var param := NatToString(p);
      TakeOneMore(Round(launch, p), j);
      launched := launched + [launch(algorithm, p)];
      assert launched == Round(launch, p)[..j + 1] && |launched| == j + 1;
      ghost var before := dir.files;
      var obs := observe(algorithm, p);
      var measured, recorded := Measure(dir, algorithm, param, header, obs, after);
      if measured == Hangs {
        RoundKeeps(old(dir.files), observe, p, j, header);
        assert Wrote(Hangs, |launched|) == j;
        return Hangs, after, launched;
      }
      RoundStep(old(dir.files), before, dir.files, observe, p, j, header);
      if measured == Unfinished {
        RoundKeeps(old(dir.files), observe, p, j + 1, header);
        assert Wrote(Unfinished, |launched|) == j + 1;
        return Unfinished, after, launched;
      }
      MeasuredRecord(after, observe, p, j);
      after := recorded;
      j := j + 1;
    }
    RoundKeeps(old(dir.files), observe, p, j, header);
    outcome := Completed;
  }

  /** `time_writer.writerow(row)` after every algorithm completed for `p`. */
  method WriteRow(dir: Directory, durations: Durations, observe: (string, nat) -> Observation, p: nat, header: Row)
    requires TimeLog in dir.files
    requires forall a :: a in Algorithms ==> a in durations
    requires Measured(durations, observe, p, |Algorithms|)
    modifies dir
    ensures dir.files == old(dir.files)[TimeLog := old(dir.files[TimeLog]) + [DurationRow(observe, p)]]
    ensures LogsKept(old(dir.files), dir.files, Algorithms, header)
  {
    var row := TimeRowOf(durations, p);
    MeasuredRow(durations, observe, p);
    dir.Append(TimeLog, row);
    TimeLogApart(old(dir.files), dir.files, dir.files[TimeLog], Algorithms, header);
  }

  /** After a completed round for `ps[i]`, the launches are the plan of one more
      parameter value. */
  lemma SweepAdvances(launch: (string, nat) -> Launch.Command, ps: seq<nat>, i: nat, launched: seq<Launch.Command>)
    requires i < |ps|
    requires launched == Plan(launch, ps[..i]) + Round(launch, ps[i])
    ensures launched == Plan(launch, ps[..i + 1])
  {
    TakeOneMore(ps, i);
    PlanSnoc(launch, ps[..i], ps[i]);
  }

  /** The launches of a round cut short lie strictly between the plan before it
      and the plan including it. */
  lemma SweepCutShort(launch: (string, nat) -> Launch.Command, ps: seq<nat>, i: nat, round: seq<Launch.Command>)
    requires i < |ps| && 0 < |round| && round <= Round(launch, ps[i])
    ensures Plan(launch, ps[..i]) < Plan(launch, ps[..i]) + round <= Plan(launch, ps[..i + 1])
  {
    var before, full := Plan(launch, ps[..i]), Round(launch, ps[i]);
    TakeOneMore(ps, i);
    PlanSnoc(launch, ps[..i], ps[i]);
    assert (before + round)[..|before|] == before;
    assert (before + full)[..|before + round|] == before + round;
  }

  /** One pass of the outer loop of `main`: measure every algorithm with `p` and,
      when all complete, append the row of their durations to the time log. */
  method MeasureParam(dir: Directory, launch: (string, nat) -> Launch.Command, observe: (string, nat) -> Observation,
                      p: nat, header: Row, durations: Durations)
    returns (outcome: Outcome, after: Durations, round: seq<Launch.Command>)
    requires TimeLog in dir.files
    requires header != [] && header[0] != Str(NatToString(p))
    requires forall a :: a in Algorithms ==> a in durations
    modifies dir
    ensures forall a :: a in Algorithms ==> a in after
    ensures TimeLog in dir.files
    ensures outcome == Completed ==>
      dir.files[TimeLog] == old(dir.files[TimeLog]) + [DurationRow(observe, p)] && round == Round(launch, p)
    ensures outcome != Completed ==>
      dir.files[TimeLog] == old(dir.files[TimeLog]) && 0 < |round| && round <= Round(launch, p)
    ensures outcome == Completed ==>
      dir.files == Logged(old(dir.files), header, RoundRuns(observe, p))[TimeLog := old(dir.files[TimeLog]) + [DurationRow(observe, p)]]
    ensures outcome != Completed ==>
      dir.files == Logged(old(dir.files), header, RoundRuns(observe, p)[..Wrote(outcome, |round|)])
    ensures LogsKept(old(dir.files), dir.files, Algorithms, header)
    ensures OthersKept(old(dir.files), dir.files, Algorithms)
  {
    outcome, after, round := MeasureAll(dir, launch, observe, p, header, durations);
    if outcome == Completed {
      ghost var measuredFiles := dir.files;
      assert RoundRuns(observe, p)[..|Algorithms|] == RoundRuns(observe, p);
      WriteRow(dir, after, observe, p, header);
      LogsKeptTransitive(old(dir.files), measuredFiles, dir.files, Algorithms, header);
      OthersKeptTimeLog(old(dir.files), measuredFiles, dir.files[TimeLog], Algorithms);
    }
  }

  /** The loop of `main` over the parameter values: after each value has been
      measured by every algorithm, its row is appended to the time log. A
      measurement that hangs, or that is still sampling when its polls run out,
      stops the sweep after `done` rows. */
  method MeasureParams(dir: Directory, launch: (string, nat) -> Launch.Command, observe: (string, nat) -> Observation,
                       ps: seq<nat>, header: Row)
    returns (outcome: Outcome, done: nat, launched: seq<Launch.Command>)
    requires TimeLog in dir.files
    requires header != [] && forall i :: 0 <= i < |ps| ==> header[0] != Str(NatToString(ps[i]))
    modifies dir
    ensures done <= |ps|
    ensures TimeLog in dir.files && dir.files[TimeLog] == old(dir.files[TimeLog]) + DurationRows(observe, ps[..done])
    ensures outcome == Completed ==> done == |ps| && launched == Plan(launch, ps)
    ensures outcome != Completed ==> done < |ps| && Plan(launch, ps[..done]) < launched <= Plan(launch, ps[..done + 1])
    ensures Wrote(outcome, |launched|) <= |SweepRuns(observe, ps)|
    ensures dir.files == Logged(old(dir.files), header, SweepRuns(observe, ps)[..Wrote(outcome, |launched|)])
                           [TimeLog := old(dir.files[TimeLog]) + DurationRows(observe, ps[..done])]
    ensures LogsKept(old(dir.files), dir.files, Algorithms, header)
    ensures OthersKept(old(dir.files), dir.files, Algorithms)
  {
    var durations := NoDurations(Algorithms);
    launched := [];
    var i := 0;
    SweepStart(dir.files, observe, ps, header);
    while i < |ps|
      invariant 0 <= i <= |ps|
      invariant forall a :: a in Algorithms ==> a in durations
      invariant launched == Plan(launch, ps[..i])
      invariant dir.files == Logged(old(dir.files), header, SweepRuns(observe, ps[..i]))
                               [TimeLog := old(dir.files)[TimeLog] + DurationRows(observe, ps[..i])]
    {
      var p := ps[i];
      ghost var started := dir.files;
      var measured, round;
      measured, durations, round := MeasureParam(dir, launch, observe, p, header, durations);
      if measured != Completed {
        SweepCutShort(launch, ps, i, round);
        launched := launched + round;
        ParamCutShort(old(dir.files), started, dir.files, observe, ps, i, header, measured, |round|, |launched|);
        return measured, i, launched;
      }
      ParamStep(old(dir.files), started, dir.files, observe, ps, i, header);
      SweepAdvances(launch, ps, i, launched + round);
      launched := launched + round;
      i := i + 1;
    }
    outcome, done := Completed, i;
    TakeAll(ps);
    SweepFinish(old(dir.files), dir.files, observe, ps, header, |launched|);
  }

}
