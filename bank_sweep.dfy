/** `measure` and `main` of the bank monitor: for each transaction count, rewrite
    the compose file and measure each algorithm in turn, then append one row to the
    time log. What the outside world does during a measurement is given as an
    `Observation` per algorithm and transaction count. */
module BankSweep {
  import opened Base
  import opened Text
  import opened Csv
  import opened Sweep
  import Readiness
  import ContainerSampler
  import Compose

  /** The algorithms the sweep measures (the other three are commented out). */
  const Algorithms: seq<string> := ["platform"]

  /** The keys `execution_times` starts with. */
  const DurationKeys: seq<string> := ["platform", "virtual", "coroutines", "goroutines"]

  const InterfaceType: string := "REST"
  const NumberOfAccounts: string := "1000"
  const NumberOfTransactions: int := 300000

  const SampleHeader: Row := [Str("transactions"), Str("timestamp"), Str("cpu_usage"), Str("memory_usage"), Str("num_threads")]
  const TimeHeader: Row := [Str("transactions"), Str("virtual"), Str("platform"), Str("coroutines"), Str("goroutines")]

  /** `range(100000, int(NUMBER_OF_TRANSACTIONS) + 1, 100000)`. */
  function Counts(): seq<int> {
    Range(100000, NumberOfTransactions + 1, 100000)
  }

  lemma CountsAre()
    ensures Counts() == [100000, 200000, 300000]
  {
    assert Counts() == Range(100000, 300001, 100000);
  }

  /** What one measurement sees: the lines of `docker-compose up`, the sampler's
      polls, the clock when the sampler starts, and the clock before and after the
      measurement. */
  datatype Observation = Observation(lines: seq<string>, polls: seq<ContainerSampler.ContainerPoll>,
                                     samplerStart: real, start: real, end: real)

  /** How a measurement, and the sweep, ends: normally, with an exception that
      leaves the monitor, or with the given polls used up while the real loop
      would go on polling. */
  datatype Outcome = Completed | Crashed | Unfinished

  /** The sampler's trace for a measurement. */
  function Sampled(obs: Observation, transactions: int): ContainerSampler.Trace {
    ContainerSampler.Run(ContainerSampler.StepsOf(obs.polls, ContainerSampler.Sampler(transactions, obs.samplerStart)))
  }

  /** `end - start`: the duration `measure` stores. */
  function Took(obs: Observation): real {
    obs.end - obs.start
  }

  function OutcomeOf(stop: ContainerSampler.Stop): Outcome {
    if ContainerSampler.Raises(stop) then Crashed
    else if stop == ContainerSampler.PollsExhausted then Unfinished
    else Completed
  }

  /** The part of `measure` that writes the log: the header when the log is empty,
      then the rows of `record_process_stats`, whose loop body is `step`, until a
      step halts. */
  method SampleInto<P>(dir: Directory, log: string, header: Row, polls: seq<P>, step: P -> ContainerSampler.Step)
    returns (stop: ContainerSampler.Stop)
    modifies dir
    ensures stop == ContainerSampler.Run(ContainerSampler.StepsOf(polls, step)).stop
    ensures dir.files == old(dir.files)[log :=
      WithHeader(old(dir.Content(log)), header) + ContainerSampler.Run(ContainerSampler.StepsOf(polls, step)).rows]
  {
    dir.AppendHeaderIfEmpty(log, header);
    stop := ContainerSampler.AppendUntilHalt(dir, log, polls, step);
  }

  /** `measure(algorithm, transactions, execution_times)`: wait for the import, add
      the header to an empty log, sample, and store the duration under the integer
      count. */
  method Measure(dir: Directory, algorithm: string, transactions: int, obs: Observation, durations: Durations)
    returns (outcome: Outcome, after: Durations)
    requires algorithm in durations
    modifies dir
    ensures dir.files == old(dir.files)[LogOf(algorithm) :=
      WithHeader(old(dir.Content(LogOf(algorithm))), SampleHeader) + Sampled(obs, transactions).rows]
    ensures outcome == OutcomeOf(Sampled(obs, transactions).stop)
    ensures outcome == Completed ==> after == Record(durations, algorithm, IntKey(transactions), Took(obs))
    ensures outcome != Completed ==> after == durations
  {
    var gate, echoed := Readiness.AwaitImport(obs.lines, Readiness.ImportMarker);
    var stop := SampleInto(dir, LogOf(algorithm), SampleHeader, obs.polls,
                           ContainerSampler.Sampler(transactions, obs.samplerStart));
    outcome := OutcomeOf(stop);
    if outcome == Completed {
      after := Record(durations, algorithm, IntKey(transactions), Took(obs));
    } else {
      after := durations;
    }
  }

  /** The sampler's rows are never the header: their first cell is a number. */
  lemma SampledAreNotHeader(obs: Observation, transactions: int)
    ensures forall j :: 0 <= j < |Sampled(obs, transactions).rows| ==> Sampled(obs, transactions).rows[j] != SampleHeader
  {
    ContainerSampler.RowsAreTagged(obs.polls, transactions, obs.samplerStart);
    var rows := Sampled(obs, transactions).rows;
    forall j | 0 <= j < |rows| ensures rows[j] != SampleHeader {
      assert rows[j] in rows;
    }
  }

  /** Every duration is stored under an integer key. */
  predicate IntKeyed(d: Durations) {
    forall a, k :: a in d && k in d[a] ==> k.IntKey?
  }

  lemma RecordKeyed(d: Durations, algorithm: string, transactions: int, seconds: real)
    requires algorithm in d && IntKeyed(d)
    ensures IntKeyed(Record(d, algorithm, IntKey(transactions), seconds))
  {
  }

  /** The lookup by `str(transactions)` never finds what was stored under the
      integer: every duration cell of the time log is `'N/A'`. */
  lemma StrLookupMisses(d: Durations, algorithm: string, transactions: int)
    requires algorithm in d && IntKeyed(d)
    ensures Lookup(d, algorithm, StrKey(IntToString(transactions))) == Str("N/A")
  {
    assert !StrKey(IntToString(transactions)).IntKey?;
  }

  /** `str(n)` for an `int`. */
  function IntToString(n: int): string {
    if n < 0 then "-" + NatToString(-n) else NatToString(n)
  }

  /** The time-log row the sweep writes for `transactions`. */
  function NaRow(transactions: int): (r: Row)
    ensures |r| == |Algorithms| + 1
  {
    [Int(transactions)] + seq(|Algorithms|, _ => Str("N/A"))
  }

  function NaRows(counts: seq<int>): (r: seq<Row>)
    ensures |r| == |counts|
    ensures forall i :: 0 <= i < |counts| ==> r[i] == NaRow(counts[i])
  {
    seq(|counts|, i requires 0 <= i < |counts| => NaRow(counts[i]))
  }

  lemma NaRowsSnoc(counts: seq<int>, transactions: int)
    ensures NaRows(counts + [transactions]) == NaRows(counts) + [NaRow(transactions)]
  {
  }

  /** The row assembly of `main`: `row = [transactions]`, then one lookup per
      algorithm appended in turn. */
  method TimeRowOf(d: Durations, transactions: int) returns (row: Row)
    requires forall a :: a in Algorithms ==> a in d
    requires IntKeyed(d)
    ensures row == NaRow(transactions)
    ensures row == TimeRow(d, Algorithms, Int(transactions), StrKey(IntToString(transactions)))
  {
    row := [Int(transactions)];
    var j := 0;
    while j < |Algorithms|
      invariant 0 <= j <= |Algorithms|
      invariant row == [Int(transactions)] + seq(j, _ => Str("N/A"))
    {
      StrLookupMisses(d, Algorithms[j], transactions);
      row := row + [Lookup(d, Algorithms[j], StrKey(IntToString(transactions)))];
      j := j + 1;
    }
    forall i | 0 <= i < |Algorithms| {
      StrLookupMisses(d, Algorithms[i], transactions);
    }
  }

  /** One measurement of the sweep: an algorithm and a transaction count. */
  datatype Measurement = Measurement(algorithm: string, transactions: int)

  /** The measurements for one count, in the order of `Algorithms`. */
  function RoundOf(transactions: int): (r: seq<Measurement>)
    ensures |r| == |Algorithms|
    ensures forall k :: 0 <= k < |Algorithms| ==> r[k] == Measurement(Algorithms[k], transactions)
  {
    seq(|Algorithms|, k requires 0 <= k < |Algorithms| => Measurement(Algorithms[k], transactions))
  }

  /** Every measurement of the sweep, count after count. */
  function Schedule(counts: seq<int>): (r: seq<Measurement>)
    ensures |r| == |counts| * |Algorithms|
  {
    if counts == [] then [] else Schedule(counts[..|counts| - 1]) + RoundOf(counts[|counts| - 1])
  }

  /** With the one algorithm `ALGORITHMS` holds, the sweep measures it once per
      count, in the order of the counts. */
  lemma {:induction false} ScheduleOfOne(counts: seq<int>)
    ensures |Schedule(counts)| == |counts|
    ensures forall i :: 0 <= i < |counts| ==> Schedule(counts)[i] == Measurement(Algorithms[0], counts[i])
    decreases |counts|
  {
    if counts != [] {
      ScheduleOfOne(counts[..|counts| - 1]);
    }
  }

  /** The compose rewrite before measurement `m`, on the compose files `origin`. */
  function Rewritten(origin: map<string, Compose.Yaml>, m: Measurement): Result<Compose.Yaml, Compose.ComposeError> {
    Compose.Modify(origin, m.algorithm, InterfaceType, NumberOfAccounts, m.transactions)
  }

  /** The interface's template exists and has the bank service's environment
      mapping: then, and only then, every rewrite succeeds (`RewriteReady`). */
  predicate TemplateReady(origin: map<string, Compose.Yaml>) {
    Compose.TemplateFor(InterfaceType) in origin && Compose.BankShape(origin[Compose.TemplateFor(InterfaceType)])
  }

  lemma RewriteReady(origin: map<string, Compose.Yaml>, m: Measurement)
    ensures Rewritten(origin, m).Success? <==> TemplateReady(origin)
  {
    assert Compose.TemplateFor(InterfaceType) != "";
  }

  /** What measurement `m` does beyond the monitor's own state: the compose
      rewrite it starts with, and the sampler's trace. */
  datatype Effect = Effect(rewrite: Result<Compose.Yaml, Compose.ComposeError>, trace: ContainerSampler.Trace)

  /** `effects` gives, for each measurement, the rewrite of the compose files
      `origin` and the sampler's trace on the measurement's observation. The
      sweep is specified over such a function, so that a rewrite or a trace is
      worked out only where its measurement runs. */
  ghost predicate Effects(origin: map<string, Compose.Yaml>, observe: (string, int) -> Observation,
                          effects: Measurement -> Effect) {
    && (forall m {:trigger Rewritten(origin, m)} :: effects(m).rewrite == Rewritten(origin, m))
    && (forall m {:trigger Sampled(observe(m.algorithm, m.transactions), m.transactions)} ::
          effects(m).trace == Sampled(observe(m.algorithm, m.transactions), m.transactions))
  }

  /** No trace has a header row. */
  ghost predicate Headerless(effects: Measurement -> Effect) {
    forall m, j :: 0 <= j < |effects(m).trace.rows| ==> effects(m).trace.rows[j] != SampleHeader
  }

  lemma EffectsAreHeaderless(origin: map<string, Compose.Yaml>, observe: (string, int) -> Observation,
                             effects: Measurement -> Effect)
    requires Effects(origin, observe, effects)
    ensures Headerless(effects)
  {
    forall m, j | 0 <= j < |effects(m).trace.rows| ensures effects(m).trace.rows[j] != SampleHeader {
      SampledAreNotHeader(observe(m.algorithm, m.transactions), m.transactions);
      assert effects(m).trace == Sampled(observe(m.algorithm, m.transactions), m.transactions);
    }
  }

  /** Either every rewrite succeeds or every one raises: which, depends on the
      template alone. */
  lemma RewritesAlike(origin: map<string, Compose.Yaml>, observe: (string, int) -> Observation,
                      effects: Measurement -> Effect, m: Measurement, n: Measurement)
    requires Effects(origin, observe, effects)
    ensures effects(m).rewrite.Success? <==> effects(n).rewrite.Success?
  {
    RewriteReady(origin, m);
    RewriteReady(origin, n);
    assert effects(m).rewrite == Rewritten(origin, m);
    assert effects(n).rewrite == Rewritten(origin, n);
  }

  /** How measurement `m` ends: with the exception when the rewrite raises,
      otherwise as its sampler stops. */
  function MeasurementOutcome(effects: Measurement -> Effect, m: Measurement): Outcome {
    if effects(m).rewrite.Failure? then Crashed
    else OutcomeOf(effects(m).trace.stop)
  }

  /** What measurement `m` writes to its algorithm's log. */
  function RunOf(effects: Measurement -> Effect, m: Measurement): Run {
    Run(m.algorithm, effects(m).trace.rows)
  }

  function Runs(effects: Measurement -> Effect, ms: seq<Measurement>): (r: seq<Run>)
    ensures |r| == |ms|
    ensures forall i :: 0 <= i < |ms| ==> r[i] == RunOf(effects, ms[i])
  {
    seq(|ms|, i requires 0 <= i < |ms| => RunOf(effects, ms[i]))
  }

  /** How each of the measurements `ms` ends. */
  function Outcomes(effects: Measurement -> Effect, ms: seq<Measurement>): (r: seq<Outcome>)
    ensures |r| == |ms|
    ensures forall i :: 0 <= i < |ms| ==> r[i] == MeasurementOutcome(effects, ms[i])
  {
    seq(|ms|, i requires 0 <= i < |ms| => MeasurementOutcome(effects, ms[i]))
  }

  /** How many of the measurements `ms` write to their log: every one the sweep
      reaches, except a last one whose rewrite raised. Every one of them
      rewrote the compose file. */
  function Wrote(effects: Measurement -> Effect, ms: seq<Measurement>): (w: nat)
    ensures FirstStop(Outcomes(effects, ms), Completed) <= w <= |ms|
    ensures forall i :: 0 <= i < w ==> effects(ms[i]).rewrite.Success?
  {
    var n := FirstStop(Outcomes(effects, ms), Completed);
    if n < |ms| && effects(ms[n]).rewrite.Success? then n + 1 else n
  }

  /** The compose files `start` after the rewrites of `ms`: the output file
      holds the last rewrite that succeeded, and nothing else changes. */
  function ComposeAfter(start: map<string, Compose.Yaml>, effects: Measurement -> Effect, ms: seq<Measurement>)
    : (r: map<string, Compose.Yaml>)
    ensures Compose.Rewrote(start, r)
    ensures ms == [] ==> r == start
  {
    if ms == [] then start
    else if effects(ms[|ms| - 1]).rewrite.Success? then start[Compose.ModifiedFile := effects(ms[|ms| - 1]).rewrite.value]
    else ComposeAfter(start, effects, ms[..|ms| - 1])
  }

  lemma CompletedSnoc(os: seq<Outcome>, j: nat)
    requires j < |os| && os[j] == Completed
    requires forall i :: 0 <= i < j ==> os[i] == Completed
    ensures forall i :: 0 <= i < j + 1 ==> os[i] == Completed
  {
  }

  lemma ComposeTake(start: map<string, Compose.Yaml>, effects: Measurement -> Effect, ms: seq<Measurement>, j: nat)
    requires j < |ms| && effects(ms[j]).rewrite.Success?
    ensures ms[..j + 1][j] == ms[j]
    ensures ComposeAfter(start, effects, ms[..j + 1]) == start[Compose.ModifiedFile := effects(ms[j]).rewrite.value]
  {
  }

  lemma RunsTake(effects: Measurement -> Effect, ms: seq<Measurement>, j: nat)
    requires j < |ms|
    ensures Runs(effects, ms[..j + 1]) == Runs(effects, ms[..j]) + [RunOf(effects, ms[j])]
  {
  }

  /** Measuring `ms[j]` after `ms[..j]` adds its run. */
  lemma MeasureStep(files: map<string, seq<Row>>, before: map<string, seq<Row>>, after: map<string, seq<Row>>,
                    effects: Measurement -> Effect, ms: seq<Measurement>, j: nat)
    requires j < |ms|
    requires before == Logged(files, SampleHeader, Runs(effects, ms[..j]))
    requires after == before[LogOf(ms[j].algorithm) := WithHeader(ContentOf(before, LogOf(ms[j].algorithm)), SampleHeader)
                                                       + RunOf(effects, ms[j]).rows]
    ensures after == Logged(files, SampleHeader, Runs(effects, ms[..j + 1]))
  {
    RunsTake(effects, ms, j);
    LoggedSnoc(files, SampleHeader, Runs(effects, ms[..j]), RunOf(effects, ms[j]));
  }

  /** Runs of the bank's algorithms keep the logs, write no header row, never
      touch the time log, and leave every other file as it was. */
  lemma RunsKeep(files: map<string, seq<Row>>, effects: Measurement -> Effect, ms: seq<Measurement>)
    requires forall i :: 0 <= i < |ms| ==> ms[i].algorithm in Algorithms
    requires Headerless(effects)
    ensures Timeless(Runs(effects, ms))
    ensures LogsKept(files, Logged(files, SampleHeader, Runs(effects, ms)), Algorithms, SampleHeader)
    ensures TimeLog in files ==> TimeLog in Logged(files, SampleHeader, Runs(effects, ms))
                                 && Logged(files, SampleHeader, Runs(effects, ms))[TimeLog] == files[TimeLog]
    ensures OthersKept(files, Logged(files, SampleHeader, Runs(effects, ms)), Algorithms)
  {
    var runs := Runs(effects, ms);
    assert HeaderFree(runs, SampleHeader);
    LoggedKeeps(files, SampleHeader, runs, Algorithms);
    LoggedFrame(files, SampleHeader, runs, Algorithms, []);
  }

  /** A pass over `round` that stopped at measurement `k` (or ran through) and
      wrote the first `w` runs ends as its measurements do, wrote what `Wrote`
      says, and keeps every log and every other file. */
  lemma RoundEnds(files: map<string, seq<Row>>, after: map<string, seq<Row>>, effects: Measurement -> Effect,
                  round: seq<Measurement>, os: seq<Outcome>, k: nat, w: nat, outcome: Outcome)
    requires os == Outcomes(effects, round)
    requires k <= |round| && forall i :: 0 <= i < |round| ==> round[i].algorithm in Algorithms
    requires forall i :: 0 <= i < k ==> os[i] == Completed
    requires k < |round| ==> outcome == os[k] != Completed
    requires k == |round| ==> outcome == Completed
    requires w == if k < |round| && effects(round[k]).rewrite.Success? then k + 1 else k
    requires after == Logged(files, SampleHeader, Runs(effects, round[..w]))
    requires Headerless(effects)
    ensures outcome == OutcomeOfAll(os, Completed)
    ensures w == Wrote(effects, round)
    ensures TimeLog in files ==> TimeLog in after && after[TimeLog] == files[TimeLog]
    ensures LogsKept(files, after, Algorithms, SampleHeader)
    ensures OthersKept(files, after, Algorithms)
  {
    FirstStopAt(os, Completed, k);
    RunsKeep(files, effects, round[..w]);
  }

  /** The body of the inner loop of `main`: rewrite the compose file for
      measurement `m`, then measure. A rewrite that raises ends the measurement
      with nothing written; otherwise the output compose file holds the rewrite
      and the log gets its run. */
  method MeasureOne(dir: Directory, compose: Compose.ComposeFiles, observe: (string, int) -> Observation,
                    m: Measurement, durations: Durations,
                    ghost origin: map<string, Compose.Yaml>, ghost effects: Measurement -> Effect)
    returns (outcome: Outcome, after: Durations)
    requires m.algorithm in durations
    requires Compose.Rewrote(origin, compose.files)
    requires Effects(origin, observe, effects)
    modifies dir, compose
    ensures outcome == MeasurementOutcome(effects, m)
    ensures outcome == Completed ==>
      after == Record(durations, m.algorithm, IntKey(m.transactions), Took(observe(m.algorithm, m.transactions)))
    ensures outcome != Completed ==> after == durations
    ensures effects(m).rewrite.Failure? ==> dir.files == old(dir.files) && compose.files == old(compose.files)
    ensures effects(m).rewrite.Success? ==>
      && compose.files == old(compose.files)[Compose.ModifiedFile := effects(m).rewrite.value]
      && dir.files == old(dir.files)[LogOf(m.algorithm) :=
           WithHeader(ContentOf(old(dir.files), LogOf(m.algorithm)), SampleHeader) + RunOf(effects, m).rows]
    ensures Compose.Rewrote(origin, compose.files)
  {
    Compose.ModifyReadsTemplate(origin, compose.files, m.algorithm, InterfaceType, NumberOfAccounts, m.transactions);
    assert effects(m).rewrite == Rewritten(origin, m);
    var rewritten := compose.ModifyDockerComposeFile(m.algorithm, InterfaceType, NumberOfAccounts, m.transactions);
    if rewritten.Failure? {
      return Crashed, durations;
    }
    var obs := observe(m.algorithm, m.transactions);
    outcome, after := Measure(dir, m.algorithm, m.transactions, obs, durations);
  }

  /** One pass of the inner loop of `main`: for each algorithm in turn, rewrite
      the compose file and measure. The pass ends as its measurements do; the
      logs of the measurements reached get their runs, except one whose rewrite
      raised; the output compose file holds the last rewrite; the time log and
      every other file are left alone; every duration recorded is under an
      integer key. Every rewrite reads the template of `origin`, which the
      compose files still hold. */
  method MeasureAll(dir: Directory, compose: Compose.ComposeFiles, observe: (string, int) -> Observation,
                    transactions: int, durations: Durations,
                    ghost origin: map<string, Compose.Yaml>, ghost effects: Measurement -> Effect)
    returns (outcome: Outcome, after: Durations)
    requires forall a :: a in Algorithms ==> a in durations
    requires IntKeyed(durations)
    requires Compose.Rewrote(origin, compose.files)
    requires Effects(origin, observe, effects)
    modifies dir, compose
    ensures forall a :: a in Algorithms ==> a in after
    ensures IntKeyed(after)
    ensures outcome == OutcomeOfAll(Outcomes(effects, RoundOf(transactions)), Completed)
    ensures dir.files == Logged(old(dir.files), SampleHeader,
                                Runs(effects, RoundOf(transactions)[..Wrote(effects, RoundOf(transactions))]))
    ensures compose.files == ComposeAfter(old(compose.files), effects,
                                          RoundOf(transactions)[..Wrote(effects, RoundOf(transactions))])
    ensures Compose.Rewrote(origin, compose.files)
    ensures TimeLog in old(dir.files) ==> TimeLog in dir.files && dir.files[TimeLog] == old(dir.files[TimeLog])
    ensures LogsKept(old(dir.files), dir.files, Algorithms, SampleHeader)
    ensures OthersKept(old(dir.files), dir.files, Algorithms)
  {
    EffectsAreHeaderless(origin, observe, effects);
    var round := RoundOf(transactions);
    ghost var os := Outcomes(effects, round);
    after := durations;
    var j := 0;
    while j < |Algorithms|
      invariant 0 <= j <= |Algorithms|
      invariant forall a :: a in Algorithms ==> a in after
      invariant IntKeyed(after)
      invariant forall i :: 0 <= i < j ==> os[i] == Completed
      invariant dir.files == Logged(old(dir.files), SampleHeader, Runs(effects, round[..j]))
      invariant compose.files == ComposeAfter(old(compose.files), effects, round[..j])
      invariant Compose.Rewrote(origin, compose.files)
    {
      ghost var before := dir.files;
      var measured, recorded := MeasureOne(dir, compose, observe, round[j], after, origin, effects);
      if effects(round[j]).rewrite.Success? {
        MeasureStep(old(dir.files), before, dir.files, effects, round, j);
        ComposeTake(old(compose.files), effects, round, j);
      }
      if measured != Completed {
        RoundEnds(old(dir.files), dir.files, effects, round, os, j,
                  if effects(round[j]).rewrite.Success? then j + 1 else j, measured);
        return measured, after;
      }
      CompletedSnoc(os, j);
      RecordKeyed(after, round[j].algorithm, transactions, Took(observe(round[j].algorithm, transactions)));
      after := recorded;
      j := j + 1;
    }
    TakeAll(round);
    RoundEnds(old(dir.files), dir.files, effects, round, os, j, j, Completed);
    outcome := Completed;
  }

  /** Before the first count, the files are as they were. */
  lemma CountsStart(files: map<string, seq<Row>>, effects: Measurement -> Effect, counts: seq<int>)
    requires TimeLog in files
    ensures files == Logged(files, SampleHeader, Runs(effects, Schedule(counts)[..0]))
                       [TimeLog := files[TimeLog] + NaRows(counts[..0])]
  {
    assert Runs(effects, Schedule(counts)[..0]) == [];
    assert files[TimeLog] + NaRows(counts[..0]) == files[TimeLog];
  }

  /** With the one algorithm `ALGORITHMS` holds, round `i` of the sweep is the
      `i`-th measurement of the schedule. */
  lemma RoundInSchedule(counts: seq<int>, i: nat)
    requires i < |counts|
    ensures |Schedule(counts)| == |counts|
    ensures RoundOf(counts[i]) == [Schedule(counts)[i]]
    ensures Schedule(counts)[..i + 1] == Schedule(counts)[..i] + RoundOf(counts[i])
  {
    ScheduleOfOne(counts);
    TakeOneMore(Schedule(counts), i);
  }

  lemma OutcomesOfOne(effects: Measurement -> Effect, ms: seq<Measurement>, i: nat)
    requires i < |ms|
    ensures Outcomes(effects, [ms[i]]) == [Outcomes(effects, ms)[i]]
  {
  }

  lemma RunsAppend(effects: Measurement -> Effect, ms: seq<Measurement>, more: seq<Measurement>)
    ensures Runs(effects, ms + more) == Runs(effects, ms) + Runs(effects, more)
  {
  }

  lemma RunsTimeless(effects: Measurement -> Effect, ms: seq<Measurement>)
    requires forall i :: 0 <= i < |ms| ==> ms[i].algorithm in Algorithms
    ensures Timeless(Runs(effects, ms))
  {
  }

  /** Rewriting for `ms` and then for `more` leaves what rewriting for all of
      them leaves. */
  lemma ComposeAfterAppend(start: map<string, Compose.Yaml>, effects: Measurement -> Effect,
                           ms: seq<Measurement>, more: seq<Measurement>)
    requires more != [] ==> effects(more[|more| - 1]).rewrite.Success?
    ensures ComposeAfter(ComposeAfter(start, effects, ms), effects, more) == ComposeAfter(start, effects, ms + more)
  {
    if more != [] {
      assert (ms + more)[|ms + more| - 1] == more[|more| - 1];
      var mid := ComposeAfter(start, effects, ms);
      if mid != start {
        Overwrite(start, Compose.ModifiedFile, mid[Compose.ModifiedFile], effects(more[|more| - 1]).rewrite.value);
      }
    } else {
      assert ms + more == ms;
    }
  }

  /** The files a sweep over `counts` leaves when its first `w` measurements wrote
      and the time log ends up as `content`: every log kept, nothing else touched. */
  lemma CountsKeep(files: map<string, seq<Row>>, effects: Measurement -> Effect, counts: seq<int>, w: nat,
                   content: seq<Row>)
    requires w <= |Schedule(counts)|
    requires Headerless(effects)
    ensures LogsKept(files, Logged(files, SampleHeader, Runs(effects, Schedule(counts)[..w]))[TimeLog := content],
                     Algorithms, SampleHeader)
    ensures OthersKept(files, Logged(files, SampleHeader, Runs(effects, Schedule(counts)[..w]))[TimeLog := content],
                       Algorithms)
  {
    var ms := Schedule(counts)[..w];
    var logged := Logged(files, SampleHeader, Runs(effects, ms));
    ScheduleOfOne(counts);
    assert forall i :: 0 <= i < |ms| ==> ms[i].algorithm in Algorithms;
    RunsKeep(files, effects, ms);
    TimeLogApart(logged, logged[TimeLog := content], content, Algorithms, SampleHeader);
    LogsKeptTransitive(files, logged, logged[TimeLog := content], Algorithms, SampleHeader);
    LoggedFrame(files, SampleHeader, Runs(effects, ms), Algorithms, content);
  }

  /** A round that completed wrote its one measurement, the schedule's `i`-th,
      and the sweep's first measurement that does not complete comes later. */
  lemma RoundCompleted(effects: Measurement -> Effect, counts: seq<int>, i: nat)
    requires i < |counts|
    requires i <= FirstStop(Outcomes(effects, Schedule(counts)), Completed)
    requires OutcomeOfAll(Outcomes(effects, RoundOf(counts[i])), Completed) == Completed
    ensures i < FirstStop(Outcomes(effects, Schedule(counts)), Completed)
    ensures i < |Schedule(counts)| && RoundOf(counts[i])[..Wrote(effects, RoundOf(counts[i]))] == [Schedule(counts)[i]]
    ensures Schedule(counts)[..i + 1] == Schedule(counts)[..i] + [Schedule(counts)[i]]
    ensures Schedule(counts)[i].algorithm in Algorithms
  {
    var ms := Schedule(counts);
    RoundInSchedule(counts, i);
    OutcomesOfOne(effects, ms, i);
    var os := Outcomes(effects, ms);
    assert os[i] == Completed;
    FirstStopAt([os[i]], Completed, 1);
    TakeAll(RoundOf(counts[i]));
  }

  /** A round of the sweep over `counts` that completed: its measurement
      completed, its run follows those before it, and its `'N/A'` row follows
      theirs in the time log. */
  lemma CountStep(files: map<string, seq<Row>>, mid: map<string, seq<Row>>, measured: map<string, seq<Row>>,
                  after: map<string, seq<Row>>, origin: map<string, Compose.Yaml>, composed: map<string, Compose.Yaml>,
                  effects: Measurement -> Effect, counts: seq<int>, i: nat)
    requires i < |counts| && TimeLog in files
    requires i <= FirstStop(Outcomes(effects, Schedule(counts)), Completed)
    requires composed == ComposeAfter(ComposeAfter(origin, effects, Schedule(counts)[..i]), effects,
                                      RoundOf(counts[i])[..Wrote(effects, RoundOf(counts[i]))])
    requires mid == Logged(files, SampleHeader, Runs(effects, Schedule(counts)[..i]))
                      [TimeLog := files[TimeLog] + NaRows(counts[..i])]
    requires OutcomeOfAll(Outcomes(effects, RoundOf(counts[i])), Completed) == Completed
    requires measured == Logged(mid, SampleHeader, Runs(effects, RoundOf(counts[i])[..Wrote(effects, RoundOf(counts[i]))]))
    requires after == measured[TimeLog := mid[TimeLog] + [NaRow(counts[i])]]
    ensures i < FirstStop(Outcomes(effects, Schedule(counts)), Completed)
    ensures after == Logged(files, SampleHeader, Runs(effects, Schedule(counts)[..i + 1]))
                       [TimeLog := files[TimeLog] + NaRows(counts[..i + 1])]
    ensures composed == ComposeAfter(origin, effects, Schedule(counts)[..i + 1])
  {
    var ms := Schedule(counts);
    RoundCompleted(effects, counts, i);
    ComposeAfterAppend(origin, effects, ms[..i], [ms[i]]);
    RunsTimeless(effects, [ms[i]]);
    RunsAppend(effects, ms[..i], [ms[i]]);
    TakeOneMore(counts, i);
    NaRowsSnoc(counts[..i], counts[i]);
    ConcatAssociates(files[TimeLog], NaRows(counts[..i]), [NaRow(counts[i])]);
    LoggedBetweenTimeLog(files, SampleHeader, Runs(effects, ms[..i]), Runs(effects, [ms[i]]), Runs(effects, ms[..i + 1]),
                         files[TimeLog] + NaRows(counts[..i]), files[TimeLog] + NaRows(counts[..i + 1]));
  }


  /** A round of the sweep over `counts` that did not complete ends the sweep as
      the schedule's first measurement that does not complete, with the runs
      `Wrote` counts and the time rows of the rounds before. */
  lemma CountCutShort(files: map<string, seq<Row>>, mid: map<string, seq<Row>>, after: map<string, seq<Row>>,
                      origin: map<string, Compose.Yaml>, composed: map<string, Compose.Yaml>,
                      effects: Measurement -> Effect, counts: seq<int>, i: nat, outcome: Outcome)
    requires i < |counts| && TimeLog in files
    requires i <= FirstStop(Outcomes(effects, Schedule(counts)), Completed)
    requires composed == ComposeAfter(ComposeAfter(origin, effects, Schedule(counts)[..i]), effects,
                                      RoundOf(counts[i])[..Wrote(effects, RoundOf(counts[i]))])
    requires mid == Logged(files, SampleHeader, Runs(effects, Schedule(counts)[..i]))
                      [TimeLog := files[TimeLog] + NaRows(counts[..i])]
    requires outcome == OutcomeOfAll(Outcomes(effects, RoundOf(counts[i])), Completed) != Completed
    requires after == Logged(mid, SampleHeader, Runs(effects, RoundOf(counts[i])[..Wrote(effects, RoundOf(counts[i]))]))
    ensures i == FirstStop(Outcomes(effects, Schedule(counts)), Completed)
    ensures outcome == OutcomeOfAll(Outcomes(effects, Schedule(counts)), Completed)
    ensures after == Logged(files, SampleHeader, Runs(effects, Schedule(counts)[..Wrote(effects, Schedule(counts))]))
                       [TimeLog := files[TimeLog] + NaRows(counts[..i])]
    ensures composed == ComposeAfter(origin, effects, Schedule(counts)[..Wrote(effects, Schedule(counts))])
  {
    var ms := Schedule(counts);
    RoundInSchedule(counts, i);
    ComposeAfterAppend(origin, effects, ms[..i], RoundOf(counts[i])[..Wrote(effects, RoundOf(counts[i]))]);
    OutcomesOfOne(effects, ms, i);
    var os := Outcomes(effects, ms);
    assert os[i] != Completed;
    FirstStopAt(os, Completed, i);
    FirstStopAt([os[i]], Completed, 0);
    var wr := Wrote(effects, RoundOf(counts[i]));
    assert ms[..i] + RoundOf(counts[i])[..wr] == ms[..Wrote(effects, ms)] by {
      if wr == 1 {
        TakeAll(RoundOf(counts[i]));
      } else {
        assert RoundOf(counts[i])[..wr] == [];
      }
    }
    RunsTimeless(effects, RoundOf(counts[i])[..wr]);
    RunsAppend(effects, ms[..i], RoundOf(counts[i])[..wr]);
    LoggedAfterTimeLog(files, SampleHeader, Runs(effects, ms[..i]), Runs(effects, RoundOf(counts[i])[..wr]),
                       files[TimeLog] + NaRows(counts[..i]));
  }

  /** The end of a round of the sweep over `counts` that completed: the time
      log gets the count's row of `'N/A'` cells, and the runs, row and rewrite
      of the round follow those of the rounds before. */
  method LogCount(dir: Directory, durations: Durations, counts: seq<int>, i: nat, ghost files: map<string, seq<Row>>,
                  ghost mid: map<string, seq<Row>>, ghost origin: map<string, Compose.Yaml>,
                  ghost composed: map<string, Compose.Yaml>, ghost effects: Measurement -> Effect)
    requires i < |counts| && TimeLog in files
    requires i <= FirstStop(Outcomes(effects, Schedule(counts)), Completed)
    requires composed == ComposeAfter(ComposeAfter(origin, effects, Schedule(counts)[..i]), effects,
                                      RoundOf(counts[i])[..Wrote(effects, RoundOf(counts[i]))])
    requires mid == Logged(files, SampleHeader, Runs(effects, Schedule(counts)[..i]))
                      [TimeLog := files[TimeLog] + NaRows(counts[..i])]
    requires OutcomeOfAll(Outcomes(effects, RoundOf(counts[i])), Completed) == Completed
    requires dir.files == Logged(mid, SampleHeader, Runs(effects, RoundOf(counts[i])[..Wrote(effects, RoundOf(counts[i]))]))
    requires forall a :: a in Algorithms ==> a in durations
    requires IntKeyed(durations)
    modifies dir
    ensures i < FirstStop(Outcomes(effects, Schedule(counts)), Completed)
    ensures dir.files == Logged(files, SampleHeader, Runs(effects, Schedule(counts)[..i + 1]))
                           [TimeLog := files[TimeLog] + NaRows(counts[..i + 1])]
    ensures composed == ComposeAfter(origin, effects, Schedule(counts)[..i + 1])
  {
    var row := TimeRowOf(durations, counts[i]);
    ghost var measured := dir.files;
    dir.Append(TimeLog, row);
    CountStep(files, mid, measured, dir.files, origin, composed, effects, counts, i);
  }

  /** The body of the outer loop of `main` for `counts[i]`, after the counts
      before it completed: one pass over the algorithms, then, when it completed,
      the row of `'N/A'` cells. A completed pass adds the count's runs and row and
      its rewrite; one that did not ends the sweep as its measurements do, with
      the runs `Wrote` counts. */
  method MeasureCount(dir: Directory, compose: Compose.ComposeFiles, observe: (string, int) -> Observation,
                      counts: seq<int>, i: nat, durations: Durations, ghost files: map<string, seq<Row>>,
                      ghost origin: map<string, Compose.Yaml>, ghost effects: Measurement -> Effect)
    returns (outcome: Outcome, after: Durations)
    requires i < |counts| && TimeLog in files
    requires Effects(origin, observe, effects)
    requires i <= FirstStop(Outcomes(effects, Schedule(counts)), Completed)
    requires dir.files == Logged(files, SampleHeader, Runs(effects, Schedule(counts)[..i]))
                            [TimeLog := files[TimeLog] + NaRows(counts[..i])]
    requires compose.files == ComposeAfter(origin, effects, Schedule(counts)[..i])
    requires forall a :: a in Algorithms ==> a in durations
    requires IntKeyed(durations)
    modifies dir, compose
    ensures forall a :: a in Algorithms ==> a in after
    ensures IntKeyed(after)
    ensures outcome == Completed ==>
      && i < FirstStop(Outcomes(effects, Schedule(counts)), Completed)
      && dir.files == Logged(files, SampleHeader, Runs(effects, Schedule(counts)[..i + 1]))
                        [TimeLog := files[TimeLog] + NaRows(counts[..i + 1])]
      && compose.files == ComposeAfter(origin, effects, Schedule(counts)[..i + 1])
    ensures outcome != Completed ==>
      && i == FirstStop(Outcomes(effects, Schedule(counts)), Completed)
      && outcome == OutcomeOfAll(Outcomes(effects, Schedule(counts)), Completed)
      && dir.files == Logged(files, SampleHeader, Runs(effects, Schedule(counts)[..Wrote(effects, Schedule(counts))]))
                        [TimeLog := files[TimeLog] + NaRows(counts[..i])]
      && compose.files == ComposeAfter(origin, effects, Schedule(counts)[..Wrote(effects, Schedule(counts))])
  {
    var transactions := counts[i];
    ghost var mid := dir.files;
    outcome, after := MeasureAll(dir, compose, observe, transactions, durations, origin, effects);
    if outcome != Completed {
      CountCutShort(files, mid, dir.files, origin, compose.files, effects, counts, i, outcome);
      return;
    }
    LogCount(dir, after, counts, i, files, mid, origin, compose.files, effects);
  }

  /** The outer loop of `main` over `counts`, with the time log already open.
      The sweep ends as the schedule's measurements do and stops after the
      first that does not complete; the logs hold the runs of the measurements
      reached, except one whose rewrite raised, and the time log one row for
      each count measured in full; the output compose file holds the last
      rewrite; every log is kept and every other file left alone. */
  method MeasureCounts(dir: Directory, compose: Compose.ComposeFiles, observe: (string, int) -> Observation,
                       counts: seq<int>, ghost effects: Measurement -> Effect)
    returns (outcome: Outcome, done: nat)
    requires TimeLog in dir.files
    requires Effects(compose.files, observe, effects)
    modifies dir, compose
    ensures done <= |counts|
    ensures done == FirstStop(Outcomes(effects, Schedule(counts)), Completed)
    ensures outcome == OutcomeOfAll(Outcomes(effects, Schedule(counts)), Completed)
    ensures dir.files == Logged(old(dir.files), SampleHeader, Runs(effects, Schedule(counts)[..Wrote(effects, Schedule(counts))]))
                           [TimeLog := old(dir.files[TimeLog]) + NaRows(counts[..done])]
    ensures compose.files == ComposeAfter(old(compose.files), effects, Schedule(counts)[..Wrote(effects, Schedule(counts))])
    ensures LogsKept(old(dir.files), dir.files, Algorithms, SampleHeader)
    ensures OthersKept(old(dir.files), dir.files, Algorithms)
  {
    ghost var origin := compose.files;
    ghost var ms := Schedule(counts);
    ghost var os := Outcomes(effects, ms);
    EffectsAreHeaderless(origin, observe, effects);
    ScheduleOfOne(counts);
    CountsStart(dir.files, effects, counts);
    var durations := NoDurations(DurationKeys);
    var i := 0;
    while i < |counts|
      invariant 0 <= i <= |counts|
      invariant i <= FirstStop(os, Completed)
      invariant dir.files == Logged(old(dir.files), SampleHeader, Runs(effects, ms[..i]))
                               [TimeLog := old(dir.files[TimeLog]) + NaRows(counts[..i])]
      invariant compose.files == ComposeAfter(origin, effects, ms[..i])
      invariant forall a :: a in Algorithms ==> a in durations
      invariant IntKeyed(durations)
    {
      var measured;
      measured, durations := MeasureCount(dir, compose, observe, counts, i, durations, old(dir.files), origin, effects);
      if measured != Completed {
        CountsKeep(old(dir.files), effects, counts, Wrote(effects, ms), old(dir.files[TimeLog]) + NaRows(counts[..i]));
        return measured, i;
      }
      i := i + 1;
    }
    TakeAll(ms);
    CountsKeep(old(dir.files), effects, counts, i, old(dir.files[TimeLog]) + NaRows(counts[..i]));
    outcome, done := Completed, i;
  }

  /** `main` from the start over files `files`: the time log rewritten with its
      header and then the sweep's rows leaves what the sweep over the original
      files with that time log leaves. */
  lemma SweepRestarted(files: map<string, seq<Row>>, headed: map<string, seq<Row>>, after: map<string, seq<Row>>,
                       effects: Measurement -> Effect, w: nat, content: seq<Row>)
    requires w <= |Schedule(Counts())|
    requires headed == files[TimeLog := [TimeHeader]]
    requires after == Logged(headed, SampleHeader, Runs(effects, Schedule(Counts())[..w]))[TimeLog := content]
    requires Headerless(effects)
    ensures after == Logged(files, SampleHeader, Runs(effects, Schedule(Counts())[..w]))[TimeLog := content]
    ensures LogsKept(files, after, Algorithms, SampleHeader)
    ensures OthersKept(files, after, Algorithms)
  {
    var runs := Runs(effects, Schedule(Counts())[..w]);
    ScheduleOfOne(Counts());
    RunsTimeless(effects, Schedule(Counts())[..w]);
    LoggedTimeLog(files, SampleHeader, runs, [TimeHeader]);
    Overwrite(Logged(files, SampleHeader, runs), TimeLog, [TimeHeader], content);
    CountsKeep(files, effects, Counts(), w, content);
  }

  /** `main`: the time log is rewritten with its header and then holds one
      `'N/A'` row per transaction count measured in full; the sweep ends as its
      measurements do, in the order of the counts, and stops after the first that
      does not complete, which a compose rewrite that raises ends as `Crashed`;
      the logs get the runs of the measurements reached, except one whose rewrite
      raised; the output compose file holds the last rewrite; every log is kept
      and every other file left alone. `effects` is what each measurement does
      outside the monitor, as `Effects` pins it down. */
  method Monitor(dir: Directory, compose: Compose.ComposeFiles, observe: (string, int) -> Observation,
                 ghost effects: Measurement -> Effect)
    returns (outcome: Outcome, done: nat)
    requires Effects(compose.files, observe, effects)
    modifies dir, compose
    ensures done <= |Counts()|
    ensures done == FirstStop(Outcomes(effects, Schedule(Counts())), Completed)
    ensures outcome == OutcomeOfAll(Outcomes(effects, Schedule(Counts())), Completed)
    ensures dir.files == Logged(old(dir.files), SampleHeader, Runs(effects, Schedule(Counts())[..Wrote(effects, Schedule(Counts()))]))
                           [TimeLog := [TimeHeader] + NaRows(Counts()[..done])]
    ensures compose.files == ComposeAfter(old(compose.files), effects, Schedule(Counts())[..Wrote(effects, Schedule(Counts()))])
    ensures LogsKept(old(dir.files), dir.files, Algorithms, SampleHeader)
    ensures OthersKept(old(dir.files), dir.files, Algorithms)
  {
    EffectsAreHeaderless(compose.files, observe, effects);
    dir.Truncate(TimeLog);
    dir.Append(TimeLog, TimeHeader);
    EmptyThen([TimeHeader]);
    Overwrite(old(dir.files), TimeLog, [], [TimeHeader]);
    ghost var headed := dir.files;
    var counts := Range(100000, NumberOfTransactions + 1, 100000);
    outcome, done := MeasureCounts(dir, compose, observe, counts, effects);
    SweepRestarted(old(dir.files), headed, dir.files, effects, Wrote(effects, Schedule(Counts())),
                   [TimeHeader] + NaRows(Counts()[..done]));
  }
}
