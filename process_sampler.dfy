/** `record_process_stats` of the two mergesort monitors: attach to the launched
    process through psutil, then, while it runs, append one row per poll with its
    resident memory, thread count and elapsed time, and its CPU share only when
    at least two seconds have passed since the last CPU reading. Every poll is
    given as data: what psutil answered and the clock readings taken during it. */
module ProcessSampler {
  import opened Csv

  /** `psutil.cpu_count()`: the number of logical CPUs. */
  type Cores = n: int | n >= 1 witness 1

  /** `psutil.Process(pid)`: no such process, or attached with the clock read
      before the priming `cpu_percent` call (`start`) and after it (`mark`). */
  datatype Attach = NoSuchProcess | Attached(start: real, mark: real)

  /** One pass of `while ps_process.is_running()`. */
  datatype ProcessPoll =
    | Ended                          // `is_running()` is false
    | Vanished                       // `NoSuchProcess` inside the body: the loop breaks
    | Sample(rss: nat, threads: nat, at: real, checkAt: real, cpuPercent: real, markAt: real)
      // `rss` and `threads` as read; `at` the clock for the elapsed time, `checkAt`
      // the clock of the two-second check, `markAt` the clock stored after a CPU reading

  /** How many polls in a row, from the first, are samples: the loop's length. */
  function SampleRun(polls: seq<ProcessPoll>): (n: nat)
    ensures n <= |polls|
    ensures forall k :: 0 <= k < n ==> polls[k].Sample?
    ensures n < |polls| ==> !polls[n].Sample?
  {
    if polls == [] || !polls[0].Sample? then 0
    else
      var n := 1 + SampleRun(polls[1..]);
      assert forall k :: 1 <= k < n ==> polls[k] == polls[1..][k - 1];
      n
  }

  /** How the loop ends within the given polls: `Stopped` when attaching failed or
      a poll found the process ended or vanished, `PollsExhausted` when every poll
      was a sample, so the real loop would go on polling. */
  datatype SampleEnd = Stopped | PollsExhausted

  function EndOf(polls: seq<ProcessPoll>, attach: Attach): (e: SampleEnd)
    ensures e == PollsExhausted <==> attach.Attached? && forall k :: 0 <= k < |polls| ==> polls[k].Sample?
  {
    if attach.Attached? && SampleRun(polls) == |polls| then PollsExhausted else Stopped
  }

  /** `last_cpu_measurement_time` when poll `j` is examined. */
  function MarkBefore(polls: seq<ProcessPoll>, mark: real, j: nat): real
    requires j <= |polls|
  {
    if j == 0 then mark
    else
      var m := MarkBefore(polls, mark, j - 1);
      var p := polls[j - 1];
      if p.Sample? && p.checkAt - m >= 2.0 then p.markAt else m
  }

  /** The CPU cell of poll `j`: the share of all cores when two seconds have passed
      since the last reading, and `None` otherwise. */
  function CpuCell(polls: seq<ProcessPoll>, mark: real, cores: Cores, j: nat): Cell
    requires j < |polls| && polls[j].Sample?
  {
    if polls[j].checkAt - MarkBefore(polls, mark, j) >= 2.0 then Num(polls[j].cpuPercent / cores as real)
    else Missing
  }

  /** `[key, elapsed_time, cpu_usage, memory_usage, num_threads]` for poll `j`. */
  function RowAt(polls: seq<ProcessPoll>, key: Cell, start: real, mark: real, cores: Cores, j: nat): Row
    requires j < |polls| && polls[j].Sample?
  {
    [key, Num(polls[j].at - start), CpuCell(polls, mark, cores, j),
     Num(polls[j].rss as real / 1048576.0), Int(polls[j].threads)]
  }

  /** The rows of the first `n` polls. */
  function RowsUpTo(polls: seq<ProcessPoll>, key: Cell, start: real, mark: real, cores: Cores, n: nat): (r: seq<Row>)
    requires n <= SampleRun(polls)
    ensures |r| == n
  {
    if n == 0 then [] else RowsUpTo(polls, key, start, mark, cores, n - 1) + [RowAt(polls, key, start, mark, cores, n - 1)]
  }

  /** Everything the sampler appends. */
  function Rows(polls: seq<ProcessPoll>, key: Cell, attach: Attach, cores: Cores): seq<Row> {
    match attach
    case NoSuchProcess => []
    case Attached(start, mark) => RowsUpTo(polls, key, start, mark, cores, SampleRun(polls))
  }

  /** Row `k` is poll `k`'s. */
  lemma {:induction false} RowsUpToAt(polls: seq<ProcessPoll>, key: Cell, start: real, mark: real, cores: Cores, n: nat)
    requires n <= SampleRun(polls)
    ensures forall k :: 0 <= k < n ==> RowsUpTo(polls, key, start, mark, cores, n)[k] == RowAt(polls, key, start, mark, cores, k)
  {
    if n > 0 {
      RowsUpToAt(polls, key, start, mark, cores, n - 1);
    }
  }

  /** One row per poll until the first poll that is not a sample, each tagged with
      the key and carrying that poll's elapsed time, CPU cell, memory in MiB and
      threads. */
  lemma RowsMeaning(polls: seq<ProcessPoll>, key: Cell, attach: Attach, cores: Cores)
    requires attach.Attached?
    ensures var r := Rows(polls, key, attach, cores);
      && |r| == SampleRun(polls)
      && forall k :: 0 <= k < |r| ==>
        && |r[k]| == 5
        && r[k][0] == key
        && r[k][1] == Num(polls[k].at - attach.start)
        && r[k][2] == CpuCell(polls, attach.mark, cores, k)
        && (r[k][2] == Missing || r[k][2] == Num(polls[k].cpuPercent / cores as real))
        && r[k][3] == Num(polls[k].rss as real / 1048576.0)
        && r[k][4] == Int(polls[k].threads)
  {
    RowsUpToAt(polls, key, attach.start, attach.mark, cores, SampleRun(polls));
  }

  /** Within one poll the clock does not run backwards between the two-second
      check and the reading stored after it. */
  predicate ClockForward(polls: seq<ProcessPoll>) {
    forall k :: 0 <= k < |polls| && polls[k].Sample? ==> polls[k].checkAt <= polls[k].markAt
  }

  /** The stored mark never moves backwards. */
  lemma {:induction false} MarkGrows(polls: seq<ProcessPoll>, mark: real, i: nat, j: nat)
    requires ClockForward(polls) && i <= j <= |polls|
    ensures MarkBefore(polls, mark, i) <= MarkBefore(polls, mark, j)
    decreases j
  {
    if i < j {
      MarkGrows(polls, mark, i, j - 1);
    }
  }

  /** The throttle: two CPU readings are at least two seconds apart, measured from
      the mark stored after the first to the check before the second. */
  lemma CpuAtMostEveryTwoSeconds(polls: seq<ProcessPoll>, mark: real, cores: Cores, i: nat, j: nat)
    requires ClockForward(polls) && i < j < |polls| && polls[i].Sample? && polls[j].Sample?
    requires CpuCell(polls, mark, cores, i) != Missing && CpuCell(polls, mark, cores, j) != Missing
    ensures polls[j].checkAt - polls[i].markAt >= 2.0
  {
    MarkGrows(polls, mark, i + 1, j);
  }

  /** Until the first CPU reading, the mark is the one taken when attaching. */
  lemma {:induction false} MarkBeforeFirstReading(polls: seq<ProcessPoll>, mark: real, cores: Cores, j: nat)
    requires j <= SampleRun(polls)
    requires forall k :: 0 <= k < j ==> CpuCell(polls, mark, cores, k) == Missing
    ensures MarkBefore(polls, mark, j) == mark
  {
    if j > 0 {
      MarkBeforeFirstReading(polls, mark, cores, j - 1);
      assert CpuCell(polls, mark, cores, j - 1) == Missing;
    }
  }

  /** After a CPU reading at poll `i` and none since, the mark is the one stored
      at poll `i`. */
  lemma {:induction false} MarkAfterReading(polls: seq<ProcessPoll>, mark: real, cores: Cores, i: nat, j: nat)
    requires i < j <= SampleRun(polls)
    requires CpuCell(polls, mark, cores, i) != Missing
    requires forall k :: i < k < j ==> CpuCell(polls, mark, cores, k) == Missing
    ensures MarkBefore(polls, mark, j) == polls[i].markAt
    decreases j
  {
    if j > i + 1 {
      MarkAfterReading(polls, mark, cores, i, j - 1);
      assert CpuCell(polls, mark, cores, j - 1) == Missing;
    } else {
      assert CpuCell(polls, mark, cores, i) != Missing;
    }
  }

  /** A poll reports the CPU exactly when two seconds have passed since the last
      reading, or since attaching when there was none. */
  lemma CpuWhenDue(polls: seq<ProcessPoll>, mark: real, cores: Cores, i: nat, j: nat)
    requires i < j < SampleRun(polls)
    requires CpuCell(polls, mark, cores, i) != Missing
    requires forall k :: i < k < j ==> CpuCell(polls, mark, cores, k) == Missing
    ensures CpuCell(polls, mark, cores, j) != Missing <==> polls[j].checkAt - polls[i].markAt >= 2.0
  {
    MarkAfterReading(polls, mark, cores, i, j);
  }

  lemma CpuFirstWhenDue(polls: seq<ProcessPoll>, mark: real, cores: Cores, j: nat)
    requires j < SampleRun(polls)
    requires forall k :: 0 <= k < j ==> CpuCell(polls, mark, cores, k) == Missing
    ensures CpuCell(polls, mark, cores, j) != Missing <==> polls[j].checkAt - mark >= 2.0
  {
    MarkBeforeFirstReading(polls, mark, cores, j);
  }

  /** `record_process_stats`: appends `Rows` to the open log, and reports whether
      the loop ended or the polls ran out first. */
  method RecordProcessStats(dir: Directory, log: string, key: Cell, attach: Attach,
                            polls: seq<ProcessPoll>, cores: Cores)
    returns (end: SampleEnd)
    requires log in dir.files
    modifies dir
    ensures dir.files == old(dir.files)[log := old(dir.Content(log)) + Rows(polls, key, attach, cores)]
    ensures end == EndOf(polls, attach)
  {
    if attach.NoSuchProcess? {
      AppendNothing(dir.files[log]);
      return Stopped;
    }
    var start := attach.start;
    var mark := attach.mark;
    var i := 0;
    ghost var written: seq<Row> := [];
    AppendNothing(dir.files[log]);
    while i < |polls| && polls[i].Sample?
      invariant 0 <= i <= SampleRun(polls)
      invariant mark == MarkBefore(polls, attach.mark, i)
      invariant written == RowsUpTo(polls, key, start, attach.mark, cores, i)
      invariant dir.files == old(dir.files)[log := old(dir.Content(log)) + written]
    {
      var p := polls[i];
      var cpu := Missing;
      if p.checkAt - mark >= 2.0 {
        cpu := Num(p.cpuPercent / cores as real);
        mark := p.markAt;
      }
      var row := [key, Num(p.at - start), cpu, Num(p.rss as real / 1048576.0), Int(p.threads)];
      assert row == RowAt(polls, key, start, attach.mark, cores, i);
      dir.Append(log, row);
      AppendAssoc(old(dir.Content(log)), written, row);
      written := written + [row];
      i := i + 1;
    }
    end := if i == |polls| then PollsExhausted else Stopped;
  }
}
