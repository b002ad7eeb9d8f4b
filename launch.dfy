/** `start_program` of the two mergesort monitors and the launch of `app.jar` in
    the chunk monitor: a case split from the algorithm name to the command line
    and the environment the program is started with. */
module Launch {
  import opened Base

  /** A command line and the variables set on top of the inherited environment. */
  datatype Command = Command(argv: seq<string>, env: map<string, string>)

  /** Where the three mergesort programs live; the Go binary's name depends on
      the operating system, so it is given. */
  datatype Executables = Executables(jar: string, kotlin: string, go: string)

  /** The values a launched mergesort program receives, by meaning. */
  datatype Params = Params(program: string, algorithm: string, listLength: string,
                           maxDepth: string, runs: string, warmUpRuns: string)

  /** The three memory settings that differ between the sweeps. */
  datatype Memory = Memory(kotlinHeap: string, javaHeap: string, goLimit: string)

  /** `start_program`: Kotlin for `coroutines`, Go for `goroutines`, the Java jar
      for every other name. */
  function StartProgram(exe: Executables, mem: Memory, algorithm: string, listLength: string,
                        maxDepth: string, runs: string, warmUpRuns: string): (c: Command)
    ensures algorithm != "goroutines" ==> c.env == map[]
    ensures algorithm == "goroutines" ==> c.env == map["GOMEMLIMIT" := mem.goLimit]
  {
    if algorithm == "coroutines" then
      Command(["java", "-Xms" + mem.kotlinHeap, "-Xmx" + mem.kotlinHeap, "-server", "-jar", exe.kotlin,
               algorithm, listLength, maxDepth, runs, warmUpRuns], map[])
    else if algorithm == "goroutines" then
      Command([exe.go, "-algorithm", algorithm, "-listLength", listLength, "-maxDepth", maxDepth,
               "-runs", runs, "-warmUpRuns", warmUpRuns], map["GOMEMLIMIT" := mem.goLimit])
    else
      Command(["java", "-Xms" + mem.javaHeap, "-Xmx" + mem.javaHeap, "-server", "-jar", exe.jar,
               algorithm, listLength, maxDepth, runs, warmUpRuns], map[])
  }

  /** The depth sweep: list length `10000000`, 10 runs, no warm-up run, 4 GB for
      every runtime. */
  function DepthCommand(exe: Executables, algorithm: string, maxDepth: string): (c: Command)
    ensures exe.go != "java" ==>
      ReadCommand(c.argv) == Some(Params(ProgramFor(exe, algorithm), algorithm, "10000000", maxDepth, "10", "0"))
  {
    var mem := Memory("4g", "4g", "4GiB");
    if exe.go != "java" then
      StartProgramReadBack(exe, mem, algorithm, "10000000", maxDepth, "10", "0");
      StartProgram(exe, mem, algorithm, "10000000", maxDepth, "10", "0")
    else StartProgram(exe, mem, algorithm, "10000000", maxDepth, "10", "0")
  }

  /** The list-length sweep: 10000 runs after 10 warm-up runs, 8 GB for Kotlin and
      Go, 4 GB for the Java jar. */
  function ListLengthCommand(exe: Executables, algorithm: string, maxDepth: string, listLength: string): (c: Command)
    ensures exe.go != "java" ==>
      ReadCommand(c.argv) == Some(Params(ProgramFor(exe, algorithm), algorithm, listLength, maxDepth, "10000", "10"))
  {
    var mem := Memory("8g", "4g", "8GiB");
    if exe.go != "java" then
      StartProgramReadBack(exe, mem, algorithm, listLength, maxDepth, "10000", "10");
      StartProgram(exe, mem, algorithm, listLength, maxDepth, "10000", "10")
    else StartProgram(exe, mem, algorithm, listLength, maxDepth, "10000", "10")
  }

  /** The chunk monitor's `java -jar app.jar virtual 10000000 <chunk> 10`. */
  function ChunkCommand(chunk: string): (argv: seq<string>)
    ensures |argv| == 7 && argv[5] == chunk
  {
    ["java", "-jar", "app.jar", "virtual", "10000000", chunk, "10"]
  }

  /** How a mergesort program reads its command line: the JVM form with the jar
      and five positional values, or the Go form with five flag pairs. */
  function ReadCommand(argv: seq<string>): (p: Option<Params>)
    ensures p.Some? ==> |argv| == 11
  {
    if |argv| != 11 then None
    else if argv[0] == "java" && argv[3] == "-server" && argv[4] == "-jar" then
      Some(Params(argv[5], argv[6], argv[7], argv[8], argv[9], argv[10]))
    else if argv[1] == "-algorithm" && argv[3] == "-listLength" && argv[5] == "-maxDepth"
         && argv[7] == "-runs" && argv[9] == "-warmUpRuns" then
      Some(Params(argv[0], argv[2], argv[4], argv[6], argv[8], argv[10]))
    else None
  }

  /** The program a name selects. */
  function ProgramFor(exe: Executables, algorithm: string): string {
    if algorithm == "coroutines" then exe.kotlin
    else if algorithm == "goroutines" then exe.go
    else exe.jar
  }

  /** Whatever the algorithm, the launched program receives the algorithm, list
      length, depth, runs and warm-up runs it was started for, in the program the
      name selects. */
  lemma StartProgramReadBack(exe: Executables, mem: Memory, algorithm: string, listLength: string,
                             maxDepth: string, runs: string, warmUpRuns: string)
    requires exe.go != "java"
    ensures ReadCommand(StartProgram(exe, mem, algorithm, listLength, maxDepth, runs, warmUpRuns).argv)
         == Some(Params(ProgramFor(exe, algorithm), algorithm, listLength, maxDepth, runs, warmUpRuns))
  {
  }

  /** The heap flags of the JVM launches. */
  function HeapFlags(c: Command): (r: Option<(string, string)>)
    ensures r.Some? ==> |c.argv| >= 3
  {
    if |c.argv| >= 3 && c.argv[0] == "java" then Some((c.argv[1], c.argv[2])) else None
  }

  /** The memory table of the depth sweep: 4 GB for every runtime. */
  lemma DepthMemory(exe: Executables, algorithm: string, maxDepth: string)
    requires exe.go != "java"
    ensures var c := DepthCommand(exe, algorithm, maxDepth);
      && (algorithm == "goroutines" ==> HeapFlags(c).None? && c.env == map["GOMEMLIMIT" := "4GiB"])
      && (algorithm != "goroutines" ==> HeapFlags(c) == Some(("-Xms4g", "-Xmx4g")) && c.env == map[])
  {
    assert "-Xms" + "4g" == "-Xms4g" && "-Xmx" + "4g" == "-Xmx4g";
  }

  /** The memory table of the list-length sweep: 8 GB for Kotlin and Go, 4 GB for
      the Java jar. */
  lemma ListLengthMemory(exe: Executables, algorithm: string, maxDepth: string, listLength: string)
    requires exe.go != "java"
    ensures var c := ListLengthCommand(exe, algorithm, maxDepth, listLength);
      && (algorithm == "coroutines" ==> HeapFlags(c) == Some(("-Xms8g", "-Xmx8g")) && c.env == map[])
      && (algorithm == "goroutines" ==> HeapFlags(c).None? && c.env == map["GOMEMLIMIT" := "8GiB"])
      && (algorithm != "coroutines" && algorithm != "goroutines" ==>
            HeapFlags(c) == Some(("-Xms4g", "-Xmx4g")) && c.env == map[])
  {
    assert "-Xms" + "4g" == "-Xms4g" && "-Xmx" + "4g" == "-Xmx4g";
    assert "-Xms" + "8g" == "-Xms8g" && "-Xmx" + "8g" == "-Xmx8g";
  }
}
