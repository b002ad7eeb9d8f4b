/** `measure` and `main` of the chunk monitor: ten runs of the Java program with
    chunk numbers 1 to 10, each sampled into one shared log that gets its header
    once when it is opened. */
module ChunkSweep {
  import opened Base
  import opened Text
  import opened Csv
  import opened Sweep
  import ChunkSampler
  import Readiness
  import Launch

  const Log: string := "measurement_log.csv"
  const Header: Row := [Str("chunk_number"), Str("timestamp"), Str("cpu_usage"), Str("memory_usage"), Str("num_threads")]

  /** What one run sees: the program's output lines, whether psutil found the
      process, what it answers on every poll, and the clock after attaching. */
  datatype Observation = Observation(lines: seq<string>, attached: bool, polls: seq<ChunkSampler.ChunkPoll>, start: real)

  /** How a run, and the monitor, ends: normally, waiting for ever for the import
      line, with an exception from the sampler, or with the given polls used up
      while the real loop would go on. */
  datatype Outcome = Completed | Hangs | Raised(crash: ChunkSampler.Crash) | Unfinished

  /** `str(chunks + 1)`. */
  function ChunkName(c: nat): (r: string)
    ensures ParseInt(r) == Some(c + 1)
  {
    IntOfNatToString(c + 1);
    NatToString(c + 1)
  }

  /** `range(0, 10)`. */
  function Chunks(): (r: seq<nat>)
    ensures |r| == |Range(0, 10, 1)|
    ensures forall i :: 0 <= i < |r| ==> r[i] == Range(0, 10, 1)[i] == i
  {
    var r := Range(0, 10, 1);
    seq(|r|, i requires 0 <= i < |r| => i)
  }

  lemma ChunksAre()
    ensures Chunks() == [0, 1, 2, 3, 4, 5, 6, 7, 8, 9]
  {
    assert |Range(0, 10, 1)| == 10;
  }

  /** What `record_process_stats` writes and how it ends. */
  function Recorded(obs: Observation, chunk: string): ChunkSampler.ChunkTrace {
    if obs.attached then ChunkSampler.Sampled(obs.polls, chunk, obs.start)
    else ChunkSampler.ChunkTrace([], ChunkSampler.Crashed(ChunkSampler.NoSuchProcess))
  }

  function OutcomeOf(end: ChunkSampler.End): Outcome {
    if end.Completed? then Completed else if end.Crashed? then Raised(end.crash) else Unfinished
  }

  /** `measure(chunk_number, writer)` once the program runs: wait for the import
      line, then sample into the shared log. */
  method Measure(dir: Directory, chunk: string, obs: Observation) returns (outcome: Outcome)
    requires Log in dir.files
    modifies dir
    ensures outcome == Hangs <==> Readiness.FirstWith(obs.lines, Readiness.ImportMarker).None?
    ensures outcome == Hangs ==> dir.files == old(dir.files)
    ensures outcome != Hangs ==> outcome == OutcomeOf(Recorded(obs, chunk).end)
    ensures outcome != Hangs ==> dir.files == old(dir.files)[Log := old(dir.files[Log]) + Recorded(obs, chunk).rows]
  {
    var wait := Readiness.AwaitMarker(obs.lines, Readiness.ImportMarker);
    if wait.Hangs? {
      return Hangs;
    }
    assert dir.files[Log] + [] == dir.files[Log];
    assert dir.files[Log := dir.files[Log] + []] == dir.files;
    var end := ChunkSampler.RecordProcessStats(dir, Log, obs.attached, obs.polls, chunk, obs.start);
    outcome := OutcomeOf(end);
  }

  /** Every row of a run starts with its chunk number, so it is never the header. */
  lemma RecordedNotHeader(obs: Observation, c: nat)
    ensures forall j :: 0 <= j < |Recorded(obs, ChunkName(c)).rows| ==> Recorded(obs, ChunkName(c)).rows[j] != Header
  {
    if obs.attached {
      ChunkSampler.SampledShape(obs.polls, ChunkName(c), obs.start);
      assert IsDigit(ChunkName(c)[0]);
    }
  }

  /** Everything the runs for `cs` write, in order. */
  function RunRows(observe: nat -> Observation, cs: seq<nat>): seq<Row> {
    if cs == [] then []
    else RunRows(observe, cs[..|cs| - 1]) + Recorded(observe(cs[|cs| - 1]), ChunkName(cs[|cs| - 1])).rows
  }

  lemma RunRowsSnoc(observe: nat -> Observation, cs: seq<nat>, c: nat)
    ensures RunRows(observe, cs + [c]) == RunRows(observe, cs) + Recorded(observe(c), ChunkName(c)).rows
  {
    assert (cs + [c])[..|cs|] == cs;
  }

  /** One more run extends the log by its rows and keeps the header once. */
  lemma OneMoreRun(log: seq<Row>, start: seq<Row>, observe: nat -> Observation, cs: seq<nat>, i: nat)
    requires i < |cs|
    requires log == start + RunRows(observe, cs[..i]) && log != [] && HeaderOnce(log, Header)
    ensures var after := log + Recorded(observe(cs[i]), ChunkName(cs[i])).rows;
      && after == start + RunRows(observe, cs[..i + 1])
      && after != [] && HeaderOnce(after, Header)
  {
    var rows := Recorded(observe(cs[i]), ChunkName(cs[i])).rows;
    RecordedNotHeader(observe(cs[i]), cs[i]);
    HeaderOnceAppend(log, Header, rows);
    TakeOneMore(cs, i);
    RunRowsSnoc(observe, cs[..i], cs[i]);
  }

  /** How the run for chunk `c` ends, given what it sees: it hangs when the
      import line never comes, and otherwise ends as its sampler does. */
  function RunOutcome(obs: Observation, c: nat): Outcome {
    if Readiness.FirstWith(obs.lines, Readiness.ImportMarker).None? then Hangs
    else OutcomeOf(Recorded(obs, ChunkName(c)).end)
  }

  /** How the runs for `cs` would end, one by one. */
  function Outcomes(observe: nat -> Observation, cs: seq<nat>): (r: seq<Outcome>)
    ensures |r| == |cs|
    ensures forall i :: 0 <= i < |cs| ==> r[i] == RunOutcome(observe(cs[i]), cs[i])
  {
    seq(|cs|, i requires 0 <= i < |cs| => RunOutcome(observe(cs[i]), cs[i]))
  }

  /** How many runs write to the log: every run the monitor reaches, except a
      last one that hangs before sampling. */
  function Sampling(os: seq<Outcome>): (n: nat)
    ensures FirstStop(os, Completed) <= n <= |os|
    ensures n == FirstStop(os, Completed) + 1 <==> FirstStop(os, Completed) < |os| && os[FirstStop(os, Completed)] != Hangs
  {
    var k := FirstStop(os, Completed);
    if k < |os| && os[k] != Hangs then k + 1 else k
  }

  /** One pass of the loop of `main`, for chunk `cs[i]` after the runs before it
      wrote their rows: the run ends as `RunOutcome` says (the `i`-th of
      `Outcomes`) and, unless it hangs,
      its rows follow theirs in the log. */
  method MeasureRun(dir: Directory, observe: nat -> Observation, cs: seq<nat>, i: nat,
                    ghost files: map<string, seq<Row>>)
    returns (outcome: Outcome)
    requires i < |cs| && Log in files
    requires dir.files == files[Log := files[Log] + RunRows(observe, cs[..i])]
    requires dir.files[Log] != [] && HeaderOnce(dir.files[Log], Header)
    modifies dir
    ensures outcome == Outcomes(observe, cs)[i]
    ensures outcome == Hangs ==> dir.files == old(dir.files)
    ensures outcome != Hangs ==> dir.files == files[Log := files[Log] + RunRows(observe, cs[..i + 1])]
    ensures dir.files[Log] != [] && HeaderOnce(dir.files[Log], Header)
  {
    ghost var before := dir.files;
    outcome := Measure(dir, ChunkName(cs[i]), observe(cs[i]));
    if outcome != Hangs {
      OneMoreRun(before[Log], files[Log], observe, cs, i);
      Overwrite(files, Log, before[Log], dir.files[Log]);
    }
  }

  /** The commands launched for `cs`, in order. */
  function Commands(cs: seq<nat>): (r: seq<seq<string>>)
    ensures |r| == |cs|
    ensures forall i :: 0 <= i < |cs| ==> r[i] == Launch.ChunkCommand(ChunkName(cs[i]))
  {
    seq(|cs|, i requires 0 <= i < |cs| => Launch.ChunkCommand(ChunkName(cs[i])))
  }

  /** The monitor stopped at run `k`, the first that does not complete, or ran
      through: it ends as that run does, and the runs that wrote are those that
      `Sampling` counts. */
  lemma ChunksEnd(observe: nat -> Observation, cs: seq<nat>, k: nat, outcome: Outcome, done: nat)
    requires k == FirstStop(Outcomes(observe, cs), Completed)
    requires k < |cs| ==> outcome == Outcomes(observe, cs)[k]
    requires k == |cs| ==> outcome == Completed
    requires done == if k < |cs| && outcome != Hangs then k + 1 else k
    ensures outcome == OutcomeOfAll(Outcomes(observe, cs), Completed)
    ensures done == Sampling(Outcomes(observe, cs))
  {
  }

  /** What the end of the runs for `cs` means: when every run completes, all of
      them wrote; a hang is the run after the last one that wrote, whose import
      line never came; a sampler that raised or ran out of polls is the last run
      that wrote, and the monitor ends as that run's sampler did. */
  lemma SweepEnd(observe: nat -> Observation, cs: seq<nat>)
    ensures var outcome := OutcomeOfAll(Outcomes(observe, cs), Completed); var done := Sampling(Outcomes(observe, cs));
      && (outcome == Completed ==> done == |cs|)
      && (outcome == Hangs ==>
            && done < |cs|
            && Readiness.FirstWith(observe(cs[done]).lines, Readiness.ImportMarker).None?)
      && (outcome.Raised? || outcome.Unfinished? ==>
            && 0 < done
            && outcome == OutcomeOf(Recorded(observe(cs[done - 1]), ChunkName(cs[done - 1])).end))
  {
    var os := Outcomes(observe, cs);
    var k := FirstStop(os, Completed);
    if k < |cs| {
      assert OutcomeOfAll(os, Completed) == os[k] == RunOutcome(observe(cs[k]), cs[k]);
    }
  }

  lemma CommandsSnoc(cs: seq<nat>, i: nat)
    requires i < |cs|
    ensures Commands(cs[..i + 1]) == Commands(cs[..i]) + [Launch.ChunkCommand(ChunkName(cs[i]))]
  {
    assert cs[..i + 1][i] == cs[i];
  }

  /** The loop of `main`: one run per chunk, until one hangs or raises. The log
      gets every run's rows and keeps its header once; the run after the last
      one counted in `done` is the one that hung, if any. */
  method MeasureChunks(dir: Directory, observe: nat -> Observation, cs: seq<nat>)
    returns (outcome: Outcome, done: nat, launched: seq<seq<string>>)
    requires Log in dir.files && dir.files[Log] != [] && HeaderOnce(dir.files[Log], Header)
    modifies dir
    ensures done <= |cs|
    ensures outcome == OutcomeOfAll(Outcomes(observe, cs), Completed)
    ensures done == Sampling(Outcomes(observe, cs))
    ensures dir.files == old(dir.files)[Log := old(dir.files[Log]) + RunRows(observe, cs[..done])]
    ensures Log in dir.files && dir.files[Log] == old(dir.files[Log]) + RunRows(observe, cs[..done])
    ensures HeaderOnce(dir.files[Log], Header)
    ensures launched == Commands(cs[..if outcome == Hangs then done + 1 else done])
  {
    ghost var os := Outcomes(observe, cs);
    launched := [];
    assert RunRows(observe, cs[..0]) == [];
    assert dir.files[Log] + [] == dir.files[Log];
    assert dir.files[Log := dir.files[Log] + []] == dir.files;
    var i := 0;
    while i < |cs|
      invariant 0 <= i <= |cs|
      invariant i <= FirstStop(os, Completed)
      invariant dir.files == old(dir.files)[Log := old(dir.files[Log]) + RunRows(observe, cs[..i])]
      invariant dir.files[Log] != [] && HeaderOnce(dir.files[Log], Header)
      invariant launched == Commands(cs[..i])
    {
      CommandsSnoc(cs, i);
      launched := launched + [Launch.ChunkCommand(ChunkName(cs[i]))];
      var measured := MeasureRun(dir, observe, cs, i, old(dir.files));
      if measured != Completed {
        outcome, done := measured, if measured == Hangs then i else i + 1;
        ChunksEnd(observe, cs, i, outcome, done);
        return;
      }
      CompletedPast(os, Completed, i);
      i := i + 1;
    }
    assert cs[..i] == cs;
    outcome, done := Completed, i;
    ChunksEnd(observe, cs, i, outcome, done);
  }

  /** `main`: the log is rewritten with its header once, then gets the rows of
      every run in chunk order, and no other file changes; runs are launched
      with chunk numbers 1, 2, ... in order; the monitor ends as the first run
      that does not complete, after which it launches nothing more. */
  method Monitor(dir: Directory, observe: nat -> Observation)
    returns (outcome: Outcome, done: nat, launched: seq<seq<string>>)
    modifies dir
    ensures done <= |Chunks()|
    ensures outcome == OutcomeOfAll(Outcomes(observe, Chunks()), Completed)
    ensures done == Sampling(Outcomes(observe, Chunks()))
    ensures dir.files == old(dir.files)[Log := [Header] + RunRows(observe, Chunks()[..done])]
    ensures Log in dir.files && dir.files[Log] == [Header] + RunRows(observe, Chunks()[..done])
    ensures HeaderOnce(dir.files[Log], Header)
    ensures outcome == Completed ==> done == |Chunks()|
    ensures outcome == Hangs ==> done < |Chunks()|
    ensures launched == Commands(Chunks()[..if outcome == Hangs then done + 1 else done])
  {
    dir.Truncate(Log);
    dir.Append(Log, Header);
    EmptyThen([Header]);
    Overwrite(old(dir.files), Log, [], [Header]);
    ghost var headed := dir.files;
    outcome, done, launched := MeasureChunks(dir, observe, Chunks());
    Overwrite(old(dir.files), Log, [Header], [Header] + RunRows(observe, Chunks()[..done]));
  }
}
