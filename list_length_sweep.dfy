/** `main` of the mergesort monitor that varies the list length: from a thousand
    elements, ten times longer each round up to ten million, every algorithm
    sorts with recursion depth 4, and one row of durations per length goes to the
    time log. */
module ListLengthSweep {
  import opened Text
  import opened Csv
  import opened Sweep
  import opened MergesortSweep
  import Launch

  /** `LIST_LENGTH`: the longest list. */
  const LongestList: nat := 10000000

  const SampleHeader: Row := [Str("list_length"), Str("timestamp"), Str("cpu_usage"), Str("memory_usage"), Str("num_threads")]
  const TimeHeader: Row := [Str("list_length"), Str("platform"), Str("virtual"), Str("coroutines"), Str("goroutines")]

  /** The values `list_length` takes in `while list_length <= LIST_LENGTH`, starting
      from `n` and multiplied by ten after each round. */
  function LengthsFrom(n: nat, limit: nat): (r: seq<nat>)
    requires n >= 1
    ensures forall i :: 0 <= i < |r| ==> r[i] <= limit
    ensures |r| > 0 ==> r[0] == n
    ensures forall i :: 0 <= i < |r| - 1 ==> r[i + 1] == r[i] * 10
    decreases limit - n
  {
    if n > limit then []
    else
      var rest := LengthsFrom(n * 10, limit);
      assert forall i :: 1 <= i < |rest| + 1 ==> ([n] + rest)[i] == rest[i - 1];
      [n] + rest
  }

  function Lengths(): seq<nat> {
    LengthsFrom(1000, LongestList)
  }

  lemma LengthsAre()
    ensures Lengths() == [1000, 10000, 100000, 1000000, 10000000]
  {
  }

  /** `start_program(algorithm, "4", str(list_length))`. */
  function LengthLaunch(exe: Launch.Executables): (string, nat) -> Launch.Command {
    (algorithm: string, length: nat) => Launch.ListLengthCommand(exe, algorithm, "4", NatToString(length))
  }

  /** A length's string never starts like the header. */
  lemma HeaderIsNotALength(ps: seq<nat>)
    ensures forall i :: 0 <= i < |ps| ==> SampleHeader[0] != Str(NatToString(ps[i]))
  {
    forall i | 0 <= i < |ps| ensures SampleHeader[0] != Str(NatToString(ps[i])) {
      NameIsNotNumber("list_length", ps[i]);
    }
  }

  /** `main`: the time log is rewritten with its header, then gets one row per
      list length holding each algorithm's duration, in the order of `ALGORITHMS`;
      the programs are launched in the order of the plan; the per-algorithm logs
      keep their header once and only grow. A program that never prints the
      warm-up line, or a sampler still running when its polls run out, stops the sweep. */
  method Monitor(dir: Directory, exe: Launch.Executables, observe: (string, nat) -> Observation)
    returns (outcome: Outcome, done: nat, launched: seq<Launch.Command>)
    modifies dir
    ensures done <= |Lengths()|
    ensures TimeLog in dir.files && dir.files[TimeLog] == [TimeHeader] + DurationRows(observe, Lengths()[..done])
    ensures outcome == Completed ==> done == |Lengths()| && launched == Plan(LengthLaunch(exe), Lengths())
    ensures outcome != Completed ==>
      && done < |Lengths()|
      && Plan(LengthLaunch(exe), Lengths()[..done]) < launched <= Plan(LengthLaunch(exe), Lengths()[..done + 1])
    ensures Wrote(outcome, |launched|) <= |SweepRuns(observe, Lengths())|
    ensures dir.files == Logged(old(dir.files), SampleHeader, SweepRuns(observe, Lengths())[..Wrote(outcome, |launched|)])
                           [TimeLog := [TimeHeader] + DurationRows(observe, Lengths()[..done])]
    ensures LogsKept(old(dir.files), dir.files, Algorithms, SampleHeader)
    ensures OthersKept(old(dir.files), dir.files, Algorithms)
  {
    dir.Truncate(TimeLog);
    dir.Append(TimeLog, TimeHeader);
    EmptyThen([TimeHeader]);
    Overwrite(old(dir.files), TimeLog, [], [TimeHeader]);
    ghost var headed := dir.files;
    var lengths := Lengths();
    HeaderIsNotALength(lengths);
    outcome, done, launched := MeasureParams(dir, LengthLaunch(exe), observe, lengths, SampleHeader);
    SweepRestarted(old(dir.files), headed, dir.files, observe, lengths, SampleHeader, TimeHeader,
                   Wrote(outcome, |launched|), done);
  }
}
