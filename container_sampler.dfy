/** The bank monitor's `record_process_stats`: a `while True` loop that polls
    `docker stats` and `docker inspect` for one container and appends one row per
    poll until a poll ends the loop. Each poll is given as data: what the two
    commands printed (or that they failed) and the clock reading taken after them. */
module ContainerSampler {
  import opened Base
  import opened Text
  import opened Csv
  import opened BankStats

  /** `docker inspect --format {{.State.ExitCode}}`: its output, or a non-zero exit. */
  datatype ExitQuery = ExitText(stdout: string) | ExitQueryFailed

  /** `docker inspect --format {{.State.Status}}`, with the exit-code query that
      follows it when the status is `exited`. */
  datatype Inspect = InspectFailed | Inspected(stdout: string, exit: ExitQuery)

  /** One pass of the loop as seen from outside. */
  datatype ContainerPoll =
    | Interrupted                                        // KeyboardInterrupt
    | StatsFailed                                        // `docker stats` exited non-zero
    | Polled(stats: string, inspect: Inspect, clock: real)

  /** Why the loop ended. The two `Unparsable` reasons are `ValueError`s the loop
      does not catch; they leave the monitor altogether. */
  datatype Stop =
    | ServiceNotFound
    | ContainerExited(code: int)
    | CommandFailed
    | StoppedByInterrupt
    | StatsUnparsable(error: ParseError)
    | ExitCodeUnparsable(text: string)
    | PollsExhausted

  predicate Raises(s: Stop) {
    s.StatsUnparsable? || s.ExitCodeUnparsable?
  }

  /** What one poll does: append a row, or end the loop. */
  datatype Step = Emit(row: Row) | Halt(stop: Stop)

  /** `[transactions, elapsed_time, cpu_usage, memory_usage, pids]`. */
  function SampleRow(transactions: int, elapsed: real, s: StatsSample): (r: Row)
    ensures |r| == 5 && r[0] == Int(transactions) && r[1] == Num(elapsed)
  {
    [Int(transactions), Num(elapsed), Num(s.cpu), s.memory, Int(s.pids)]
  }

  /** One iteration of the loop body, in the order the checks happen. */
  function StepOf(p: ContainerPoll, transactions: int, start: real): (r: Step)
    ensures r.Emit? ==> |r.row| == 5 && r.row[0] == Int(transactions)
  {
    match p
    case Interrupted => Halt(StoppedByInterrupt)
    case StatsFailed => Halt(CommandFailed)
    case Polled(stats, inspect, clock) => PollStep(stats, inspect, clock - start, transactions)
  }

  /** An iteration in which `docker stats` succeeded and printed `stats`. */
  function PollStep(stats: string, inspect: Inspect, elapsed: real, transactions: int): (r: Step)
    ensures r.Emit? ==> |r.row| == 5 && r.row[0] == Int(transactions)
  {
    var output := Strip(stats);
    if output == [] then Halt(ServiceNotFound)
    else
      match ParseStatsLine(output)
      case Failure(e) => Halt(StatsUnparsable(e))
      case Success(sample) => InspectStep(sample, inspect, elapsed, transactions)
  }

  /** The rest of an iteration once the stats line has parsed: the status check. */
  function InspectStep(sample: StatsSample, inspect: Inspect, elapsed: real, transactions: int): (r: Step)
    ensures r.Emit? ==> r.row == SampleRow(transactions, elapsed, sample)
  {
    match inspect
    case InspectFailed => Halt(CommandFailed)
    case Inspected(status, exit) =>
      if Strip(status) == "exited" then Halt(ExitStop(exit))
      else Emit(SampleRow(transactions, elapsed, sample))
  }

  /** How the loop ends for an exited container: the exit code is read back and
      only chooses the message, or the query fails, or its output is no integer. */
  function ExitStop(exit: ExitQuery): Stop {
    match exit
    case ExitQueryFailed => CommandFailed
    case ExitText(t) =>
      match ParseInt(Strip(t))
      case None => ExitCodeUnparsable(t)
      case Some(code) => ContainerExited(code)
  }

  /** The rows the loop appends and the reason it ends. `PollsExhausted` means
      that every given poll wrote a row and the real loop would poll again. */
  datatype Trace = Trace(rows: seq<Row>, stop: Stop)

  /** What each poll does, in order. */
  function StepsOf<P>(polls: seq<P>, step: P -> Step): (r: seq<Step>)
    ensures |r| == |polls|
    ensures forall i :: 0 <= i < |polls| ==> r[i] == step(polls[i])
  {
    if polls == [] then [] else [step(polls[0])] + StepsOf(polls[1..], step)
  }

  /** The loop body of `record_process_stats` as a function of the poll. */
  function Sampler(transactions: int, start: real): ContainerPoll -> Step {
    p => StepOf(p, transactions, start)
  }

  /** The loop over the polls' steps: rows until the first step that halts. */
  function Run(steps: seq<Step>): (t: Trace)
    ensures |t.rows| <= |steps|
  {
    if steps == [] then Trace([], PollsExhausted)
    else
      match steps[0]
      case Halt(s) => Trace([], s)
      case Emit(row) =>
        var rest := Run(steps[1..]);
        Trace([row] + rest.rows, rest.stop)
  }

  /** The number of leading steps that write a row. */
  function Writing(steps: seq<Step>): (k: nat)
    ensures k <= |steps|
    ensures forall i :: 0 <= i < k ==> steps[i].Emit?
    ensures k < |steps| ==> steps[k].Halt?
  {
    if steps == [] || steps[0].Halt? then 0 else 1 + Writing(steps[1..])
  }

  /** The loop writes exactly the rows of the steps before the first one that
      ends it, in order, and stops for that step's reason. */
  lemma {:induction false} RunIsPrefix(steps: seq<Step>)
    ensures var k := Writing(steps);
      var t := Run(steps);
      && |t.rows| == k
      && (forall i :: 0 <= i < k ==> t.rows[i] == steps[i].row)
      && t.stop == (if k < |steps| then steps[k].stop else PollsExhausted)
  {
    if steps != [] && steps[0].Emit? {
      RunIsPrefix(steps[1..]);
      var t := Run(steps);
      var rest := Run(steps[1..]);
      forall i | 1 <= i < Writing(steps) ensures t.rows[i] == steps[i].row {
        assert t.rows[i] == rest.rows[i - 1];
        assert steps[1..][i - 1] == steps[i];
      }
    }
  }

  /** One step of the loop from position `i`: it either ends the loop or puts its
      row in front of the rest. */
  lemma {:induction false} RunAt(steps: seq<Step>, i: nat)
    requires i < |steps|
    ensures steps[i].Halt? ==> Run(steps[i..]) == Trace([], steps[i].stop)
    ensures steps[i].Emit? ==> Run(steps[i..]) == Trace([steps[i].row] + Run(steps[i + 1..]).rows, Run(steps[i + 1..]).stop)
  {
    assert steps[i..][0] == steps[i] && steps[i..][1..] == steps[i + 1..];
  }

  /** Every row the sampler writes is `[transactions, elapsed, cpu, memory, pids]`. */
  lemma {:induction false} RowsAreTagged(polls: seq<ContainerPoll>, transactions: int, start: real)
    ensures forall r :: r in Run(StepsOf(polls, Sampler(transactions, start))).rows ==> |r| == 5 && r[0] == Int(transactions)
  {
    var steps := StepsOf(polls, Sampler(transactions, start));
    RunIsPrefix(steps);
    var t := Run(steps);
    forall r | r in t.rows ensures |r| == 5 && r[0] == Int(transactions) {
      var i :| 0 <= i < |t.rows| && t.rows[i] == r;
      assert steps[i] == StepOf(polls[i], transactions, start);
    }
  }

  /** Empty `docker stats` output ends the loop with "not found" and writes nothing. */
  lemma EmptyOutputStops(stats: string, inspect: Inspect, elapsed: real, transactions: int)
    requires Strip(stats) == []
    ensures PollStep(stats, inspect, elapsed, transactions) == Halt(ServiceNotFound)
  {
  }

  /** A container reported as `exited` ends the loop without a row, whatever its
      exit code: 0, 1 and every other code only change the message. */
  lemma {:induction false} ExitedWritesNothing(stats: string, status: string, exit: ExitQuery, elapsed: real, transactions: int)
    requires Strip(stats) != [] && ParseStatsLine(Strip(stats)).Success?
    requires Strip(status) == "exited"
    ensures var r := PollStep(stats, Inspected(status, exit), elapsed, transactions);
      && r.Halt?
      && (r.stop.ContainerExited? || r.stop == CommandFailed || r.stop.ExitCodeUnparsable?)
      && (exit.ExitQueryFailed? ==> r.stop == CommandFailed)
  {
  }

  /** The exit code `docker inspect` prints, with its newline, is the code the loop
      stops with. */
  lemma {:induction false} ExitCodeReadBack(code: nat)
    ensures ExitStop(ExitText(NatToString(code) + "\n")) == ContainerExited(code)
  {
    var d := NatToString(code);
    assert Strip(d + "\n") == d by {
      var s := d + "\n";
      assert TrimStart(s, None) == s by {
        assert s[0] == d[0];
      }
      assert s[..|s| - 1] == d;
      assert TrimEnd(s, None) == TrimEnd(d, None);
      StripDigits(d);
    }
    IntOfNatToString(code);
  }

  /** A status other than `exited` writes the parsed sample. */
  lemma {:induction false} AliveWritesSample(stats: string, status: string, exit: ExitQuery, elapsed: real, transactions: int)
    requires Strip(stats) != [] && ParseStatsLine(Strip(stats)).Success?
    requires Strip(status) != "exited"
    ensures var sample := ParseStatsLine(Strip(stats)).value;
      PollStep(stats, Inspected(status, exit), elapsed, transactions)
        == Emit([Int(transactions), Num(elapsed), Num(sample.cpu), sample.memory, Int(sample.pids)])
  {
  }

  /** The stats line of a running container, in docker's decimal form, is written
      back as its values, with the clock reading as the elapsed time. */
  lemma {:induction false} RunningPollWritesItsNumbers(c: string, cpu: real, d: string, memory: real,
                                                       limit: string, pids: nat, status: string,
                                                       exit: ExitQuery, elapsed: real, transactions: int)
    requires DecimalText(c) && ParseDecimal(c) == Some(cpu)
    requires DecimalText(d) && ParseDecimal(d) == Some(memory)
    requires ',' !in limit && Strip(status) != "exited"
    ensures var line := c + "%," + d + "MB / " + limit + "," + NatToString(pids);
      PollStep(line, Inspected(status, exit), elapsed, transactions)
        == Emit([Int(transactions), Num(elapsed), Num(cpu), Num(memory), Int(pids)])
  {
    var line := c + "%," + d + "MB / " + limit + "," + NatToString(pids);
    assert Strip(line) == line by {
      assert line[0] == c[0];
      assert line[|line| - 1] == NatToString(pids)[|NatToString(pids)| - 1];
      StripKeeps(line);
    }
    StatsLineRoundTrip(c, cpu, d, memory, limit, pids);
    AliveWritesSample(line, status, exit, elapsed, transactions);
  }

  /** The sampler loop, for polls that each decide their own step: append each
      poll's row to the log until a poll ends the loop. */
  method AppendUntilHalt<P>(dir: Directory, log: string, polls: seq<P>, step: P -> Step) returns (stop: Stop)
    requires log in dir.files
    modifies dir
    ensures stop == Run(StepsOf(polls, step)).stop
    ensures dir.files == old(dir.files)[log := old(dir.Content(log)) + Run(StepsOf(polls, step)).rows]
  {
    ghost var steps := StepsOf(polls, step);
    ghost var written: seq<Row> := [];
    assert old(dir.Content(log)) + written == dir.files[log];
    assert steps[0..] == steps;
    var i := 0;
    while i < |polls|
      invariant 0 <= i <= |polls|
      invariant Run(steps).rows == written + Run(steps[i..]).rows
      invariant Run(steps).stop == Run(steps[i..]).stop
      invariant dir.files == old(dir.files)[log := old(dir.Content(log)) + written]
    {
      var s := step(polls[i]);
      RunAt(steps, i);
      if s.Halt? {
        AppendNothing(written);
        return s.stop;
      }
      dir.Append(log, s.row);
      AppendAssoc(old(dir.Content(log)), written, s.row);
      ShiftRow(written, s.row, Run(steps[i + 1..]).rows);
      written := written + [s.row];
      i := i + 1;
    }
    assert steps[i..] == [];
    AppendNothing(written);
    stop := PollsExhausted;
  }

  /** `record_process_stats` over the given polls: the rows of the polls before
      the first one that ends the loop are appended to the log, in order, and the
      loop ends for that poll's reason. */
  method RecordProcessStats(dir: Directory, log: string, polls: seq<ContainerPoll>, transactions: int, start: real)
    returns (stop: Stop)
    requires log in dir.files
    modifies dir
    ensures stop == Run(StepsOf(polls, Sampler(transactions, start))).stop
    ensures dir.files == old(dir.files)[log := old(dir.Content(log)) + Run(StepsOf(polls, Sampler(transactions, start))).rows]
  {
    stop := AppendUntilHalt(dir, log, polls, Sampler(transactions, start));
  }
}
