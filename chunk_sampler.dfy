/** `record_process_stats` of the chunk monitor: attach to the Java process, then,
    while it runs and is not a zombie, append one row per poll with its CPU share,
    memory and threads, and sleep for what is left of 0.2 seconds. Nothing here
    catches an exception: a vanished process or a poll that took longer than 0.2
    seconds (a negative sleep) ends the whole monitor. */
module ChunkSampler {
  import opened Csv

  /** One pass of `while process.is_running() and process.status() != ZOMBIE`. */
  datatype ChunkPoll =
    | Finished                       // not running, or a zombie
    | Vanished                       // `NoSuchProcess` inside the body
    | Sample(cpuPercent: real, rss: nat, threads: nat, at: real, took: real)
      // `at` is the clock for the elapsed time, `took` the time the body took

  /** Why the sampler returned or raised. */
  datatype Crash = NoSuchProcess | NegativeSleep
  datatype End = Completed | Crashed(crash: Crash) | PollsExhausted

  datatype ChunkTrace = ChunkTrace(rows: seq<Row>, end: End)

  /** `[chunk_number, elapsed_time, cpu_usage, memory_usage, num_threads]`. */
  function ChunkRow(chunk: string, start: real, p: ChunkPoll): Row
    requires p.Sample?
  {
    [Str(chunk), Num(p.at - start), Num(p.cpuPercent), Num(p.rss as real / 1048576.0), Int(p.threads)]
  }

  /** The rows written and how the loop ended, for the process attached at `start`. */
  function Sampled(polls: seq<ChunkPoll>, chunk: string, start: real): ChunkTrace {
    if polls == [] then ChunkTrace([], PollsExhausted)
    else match polls[0]
      case Finished => ChunkTrace([], Completed)
      case Vanished => ChunkTrace([], Crashed(NoSuchProcess))
      case Sample(_, _, _, _, took) =>
        if took > 0.2 then ChunkTrace([ChunkRow(chunk, start, polls[0])], Crashed(NegativeSleep))
        else
          var rest := Sampled(polls[1..], chunk, start);
          ChunkTrace([ChunkRow(chunk, start, polls[0])] + rest.rows, rest.end)
  }

  /** The sampler writes one row for each poll from the first up to the first that
      finishes, vanishes or overruns, an overrunning poll's row included; every
      poll before the last row kept within 0.2 seconds; it raises on a negative
      sleep exactly when the last row's poll overran, and otherwise the way it
      ended names the poll after the last row. */
  lemma {:induction false} SampledShape(polls: seq<ChunkPoll>, chunk: string, start: real)
    ensures var t := Sampled(polls, chunk, start); var k := |t.rows|;
      && k <= |polls|
      && (forall i :: 0 <= i < k ==> polls[i].Sample? && t.rows[i] == ChunkRow(chunk, start, polls[i]))
      && (forall i :: 0 <= i < k - 1 ==> polls[i].took <= 0.2)
      && (t.end == Crashed(NegativeSleep) <==> k > 0 && polls[k - 1].took > 0.2)
      && (t.end != Crashed(NegativeSleep) ==>
            && (t.end == Completed <==> k < |polls| && polls[k].Finished?)
            && (t.end == Crashed(NoSuchProcess) <==> k < |polls| && polls[k].Vanished?)
            && (t.end == PollsExhausted <==> k == |polls|))
  {
    if polls != [] && polls[0].Sample? && polls[0].took <= 0.2 {
      var rest := Sampled(polls[1..], chunk, start);
      SampledShape(polls[1..], chunk, start);
      var t := Sampled(polls, chunk, start);
      assert t.rows == [ChunkRow(chunk, start, polls[0])] + rest.rows;
      assert forall i :: 1 <= i < |t.rows| ==> t.rows[i] == rest.rows[i - 1] && polls[i] == polls[1..][i - 1];
      var k := |rest.rows|;
      if k + 1 < |polls| {
        assert polls[k + 1] == polls[1..][k];
      }
      if k > 0 {
        assert polls[k] == polls[1..][k - 1];
      }
    }
  }

  /** One pass from position `i`. */
  lemma SampledAt(polls: seq<ChunkPoll>, chunk: string, start: real, i: nat)
    requires i < |polls|
    ensures Sampled(polls[i..], chunk, start)
         == match polls[i]
            case Finished => ChunkTrace([], Completed)
            case Vanished => ChunkTrace([], Crashed(NoSuchProcess))
            case Sample(_, _, _, _, took) =>
              if took > 0.2 then ChunkTrace([ChunkRow(chunk, start, polls[i])], Crashed(NegativeSleep))
              else ChunkTrace([ChunkRow(chunk, start, polls[i])] + Sampled(polls[i + 1..], chunk, start).rows,
                              Sampled(polls[i + 1..], chunk, start).end)
  {
    assert polls[i..][0] == polls[i] && polls[i..][1..] == polls[i + 1..];
  }

  /** `record_process_stats(pid, writer, chunk_number)`: `attached` is whether
      `psutil.Process(pid)` found the process; the rows go to the open log. */
  method RecordProcessStats(dir: Directory, log: string, attached: bool, polls: seq<ChunkPoll>,
                            chunk: string, start: real) returns (end: End)
    requires log in dir.files
    modifies dir
    ensures !attached ==> end == Crashed(NoSuchProcess) && dir.files == old(dir.files)
    ensures attached ==> end == Sampled(polls, chunk, start).end
    ensures attached ==> dir.files == old(dir.files)[log := old(dir.Content(log)) + Sampled(polls, chunk, start).rows]
  {
    if !attached {
      return Crashed(NoSuchProcess);
    }
    var i := 0;
    ghost var written: seq<Row> := [];
    AppendNothing(dir.files[log]);
    assert polls[0..] == polls;
    while i < |polls|
      invariant 0 <= i <= |polls|
      invariant Sampled(polls, chunk, start).rows == written + Sampled(polls[i..], chunk, start).rows
      invariant Sampled(polls, chunk, start).end == Sampled(polls[i..], chunk, start).end
      invariant dir.files == old(dir.files)[log := old(dir.Content(log)) + written]
    {
      SampledAt(polls, chunk, start, i);
      match polls[i]
      case Finished =>
        AppendNothing(written);
        return Completed;
      case Vanished =>
        AppendNothing(written);
        return Crashed(NoSuchProcess);
      case Sample(cpu, rss, threads, at, took) =>
        var row := [Str(chunk), Num(at - start), Num(cpu), Num(rss as real / 1048576.0), Int(threads)];
        dir.Append(log, row);
        AppendAssoc(old(dir.Content(log)), written, row);
        ShiftRow(written, row, Sampled(polls[i + 1..], chunk, start).rows);
        written := written + [row];
        if took > 0.2 {
          AppendNothing(written);
          return Crashed(NegativeSleep);
        }
        i := i + 1;
    }
    assert polls[i..] == [];
    AppendNothing(written);
    end := PollsExhausted;
  }
}
