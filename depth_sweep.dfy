/** `main` of the mergesort monitor that varies the recursion depth: for each depth
    below `MAX_DEPTH`, every algorithm sorts a list of ten million elements, and
    one row of durations per depth goes to the time log. */
module DepthSweep {
  import opened Text
  import opened Csv
  import opened Sweep
  import opened MergesortSweep
  import Launch

  const MaxDepth: int := 4

  const SampleHeader: Row := [Str("max_depth"), Str("timestamp"), Str("cpu_usage"), Str("memory_usage"), Str("num_threads")]
  const TimeHeader: Row := [Str("max_depth"), Str("platform"), Str("virtual"), Str("coroutines"), Str("goroutines")]

  /** `range(0, MAX_DEPTH)`. */
  function Depths(): (r: seq<nat>)
    ensures |r| == |Range(0, MaxDepth, 1)|
    ensures forall i :: 0 <= i < |r| ==> r[i] == Range(0, MaxDepth, 1)[i] == i
  {
    var r := Range(0, MaxDepth, 1);
    seq(|r|, i requires 0 <= i < |r| => i)
  }

  lemma DepthsAre()
    ensures Depths() == [0, 1, 2, 3]
  {
    assert |Range(0, MaxDepth, 1)| == 4;
  }

  /** `start_program(algorithm, str(max_depth))`. */
  function DepthLaunch(exe: Launch.Executables): (string, nat) -> Launch.Command {
    (algorithm: string, depth: nat) => Launch.DepthCommand(exe, algorithm, NatToString(depth))
  }

  /** A depth's string never starts like the header. */
  lemma HeaderIsNotADepth(ps: seq<nat>)
    ensures forall i :: 0 <= i < |ps| ==> SampleHeader[0] != Str(NatToString(ps[i]))
  {
    forall i | 0 <= i < |ps| ensures SampleHeader[0] != Str(NatToString(ps[i])) {
      NameIsNotNumber("max_depth", ps[i]);
    }
  }

  /** `main`: the time log is rewritten with its header, then gets one row per
      depth holding each algorithm's duration, in the order of `ALGORITHMS`; the
      programs are launched in the order of the plan; the per-algorithm logs keep
      their header once and only grow. A program that never prints the warm-up
      line, or a sampler still running when its polls run out, stops the sweep. */
  method Monitor(dir: Directory, exe: Launch.Executables, observe: (string, nat) -> Observation)
    returns (outcome: Outcome, done: nat, launched: seq<Launch.Command>)
    modifies dir
    ensures done <= |Depths()|
    ensures TimeLog in dir.files && dir.files[TimeLog] == [TimeHeader] + DurationRows(observe, Depths()[..done])
    ensures outcome == Completed ==> done == |Depths()| && launched == Plan(DepthLaunch(exe), Depths())
    ensures outcome != Completed ==>
      && done < |Depths()|
      && Plan(DepthLaunch(exe), Depths()[..done]) < launched <= Plan(DepthLaunch(exe), Depths()[..done + 1])
    ensures Wrote(outcome, |launched|) <= |SweepRuns(observe, Depths())|
    ensures dir.files == Logged(old(dir.files), SampleHeader, SweepRuns(observe, Depths())[..Wrote(outcome, |launched|)])
                           [TimeLog := [TimeHeader] + DurationRows(observe, Depths()[..done])]
    ensures LogsKept(old(dir.files), dir.files, Algorithms, SampleHeader)
    ensures OthersKept(old(dir.files), dir.files, Algorithms)
  {
    dir.Truncate(TimeLog);
    dir.Append(TimeLog, TimeHeader);
    EmptyThen([TimeHeader]);
    Overwrite(old(dir.files), TimeLog, [], [TimeHeader]);
    ghost var headed := dir.files;
    var depths := Depths();
    HeaderIsNotADepth(depths);
    outcome, done, launched := MeasureParams(dir, DepthLaunch(exe), observe, depths, SampleHeader);
    SweepRestarted(old(dir.files), headed, dir.files, observe, depths, SampleHeader, TimeHeader,
                   Wrote(outcome, |launched|), done);
  }
}
