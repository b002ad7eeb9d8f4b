# Monitoring harness: a verified model

This project models the benchmark harness of the Monitoring repository in
Dafny. The harness launches the mergesort programs (Java platform and
virtual threads, Kotlin coroutines, Go goroutines) and the bank service, and
samples their CPU, memory and thread counts into CSV logs. It also records how
long each run took in a time log. The two bar-chart scripts then reduce those
logs to per-metric tables of group maxima and means, and to a table of
execution times.

The model covers:

- the monitors;
  - the mergesort monitors that vary the recursion depth and the list length;
  - the bank monitor with its docker-compose rewrite and its `docker stats`
    sampler;
  - the single-algorithm chunk monitor;
- the two bar-chart scripts, up to the point where they start plotting.

Modules follow the program's structure:

- `Base` and `Text`: `Option`/`Result`, and the Python `str` operations the
  harness applies to tool output (`strip`, `split`, `upper`, `replace`, `in`,
  `str(n)`, `int(s)`, `float(s)`).
- `Csv`: CSV cells and rows, and a `Directory` class of files that the
  monitors truncate and append to.
- `Sweep`: Python's `range`, the `execution_times` dictionary, time-log rows,
  and the rule that a log gets its header only while it is empty.
- `Launch`: `start_program` and the command line of the chunk monitor.
- `Readiness`: the loops that wait for a ready line in the launched program's
  output.
- `ProcessSampler`: the psutil sampler of the mergesort monitors, with its
  two-second CPU throttle.
- `ChunkSampler`: the psutil sampler of the chunk monitor.
- `BankStats`: the parse of one `docker stats` line.
- `ContainerSampler`: the bank monitor's `docker stats` / `docker inspect`
  loop.
- `Compose`: `modify_docker_compose_file`, a YAML template rewritten by path
  assignments, and the class that stores the result.
- `MergesortSweep`, `DepthSweep`, `ListLengthSweep`, `BankSweep`,
  `ChunkSweep`: `measure` and `main` of each monitor.
- `Frames`, `GroupBy`, `Reduction`: `pd.read_csv`, `pd.to_numeric(...,
  errors='coerce')` and `groupby(...).agg(max/mean)`.
- `Aggregate`: `round_to_zero` and `save_aggregated_csv` (the combined
  frames and their outer merge).
- `Plotting`: the order in which a bar-chart script reads, reduces and saves.
- `MergesortPlot`, `BankPlot`: the constants of the two scripts.

Processes, clocks and tool output are parameters:

- the lines a program prints;
- what psutil or docker answers on each poll;
- the clock readings;
- the files present when a script starts.

A loop that polls "for ever" runs over a finite sequence of polls. Its outcome
says when the real loop would keep going (`Hangs`, `PollsExhausted`).

Each sweep states the files it leaves behind exactly:

- the time log or chunk log;
- every algorithm log, as a fold of one measurement's header rule and rows
  (`Sweep.Logged`);
- every other file unchanged (`Sweep.OthersKept`).

The bank sweep's contracts are stated over a ghost function `effects`. For each
measurement, it gives the compose rewrite the measurement starts with and the
sampler's trace. `BankSweep.Effects` ties it to `Compose.Modify` on the compose
files the sweep starts with, and to the sampler on that measurement's
observation. A rewrite that raises ends the sweep as `Crashed`, after the
measurements before it.

Where the code does something a reader might not expect, the model follows the code:

- Docker reports memory as `512.00MiB` or `2.00GiB`. The bank sampler
  upper-cases these to `512.00MIB` and `2.00GIB`. Neither contains `MB` or
  `GB`, so the code keeps them as text rather than converting them to
  megabytes (`BankStats.MebibytesStayText`, `BankStats.GibibytesStayText`).
  A bar-chart script that reads such text coerces it to NaN
  (`Frames.UnitIsNaN`).
- The bank monitor and the bank bar-chart script do not connect as written. The
  monitor's logs have the columns `transactions`, `timestamp`, `cpu_usage`,
  `memory_usage` and `num_threads` (bank/monitoringBank.py:188). The script
  first reads `delay` and later `postgres_cpu` (bank/plottingBankBar.py:41-45).
  On a monitor's log it therefore stops with a `KeyError` on `delay` before it
  saves anything (`BankPlot.MonitorLogLacksDelay`, `BankPlot.MonitorLogsStopScript`).

## Model

| member | source | states |
|---|---|---|
| Text.TrimStart | bank/monitoringBank.py:94 | `lstrip` never lengthens the text |
| Text.TrimStartShape | bank/monitoringBank.py:94 | `lstrip` removes exactly a leading run of strippable characters and stops at the first character that is not one |
| Text.TrimEnd | bank/monitoringBank.py:94 | `rstrip` never lengthens the text |
| Text.TrimEndShape | bank/monitoringBank.py:94 | `rstrip` removes exactly a trailing run of strippable characters and stops at the last character that is not one |
| Text.Strip | bank/monitoringBank.py:94 | `strip()` never lengthens the text |
| Text.StripChar | bank/monitoringBank.py:100 | `strip('%')` never lengthens the text |
| Text.TrimShape | bank/monitoringBank.py:94 | what `strip` leaves is a slice of the input whose ends are not strippable |
| Text.Upper | bank/monitoringBank.py:101 | `upper()` keeps the length and upper-cases each character in place |
| Text.ContainsAt | bank/monitoringBank.py:102 | `sub in s` holds exactly when `sub` occurs at some index of `s` |
| Text.Contains | bank/monitoringBank.py:102 | `sub in s`: the empty text is in every text, and no text holds a longer one (`Text.ContainsAt` states where an occurrence lies) |
| Text.Replace | bank/monitoringBank.py:103 | `replace` leaves a text without the pattern unchanged |
| Text.Split | bank/monitoringBank.py:99 | `split(sep)` yields at least one piece and no piece holds the separator |
| Text.JoinSplit | bank/monitoringBank.py:99 | joining the pieces of `split` with the separator gives back the text |
| Text.SplitCons | bank/monitoringBank.py:99 | a separator-free head, the separator and a tail split into the head followed by the tail's pieces |
| Text.SplitNone | bank/monitoringBank.py:101 | a text without the separator splits into itself alone |
| Text.NatToString | mergesort/monitoringMergesort.py:115 | `str(n)` is a non-empty run of digits |
| Text.DigitsOfNat | mergesort/monitoringMergesort.py:115 | the digits of `str(n)` have the value `n` |
| Text.FractionValue | bank/monitoringBank.py:100 | the digits after a decimal point have a value between 0 and 1 |
| Text.DigitRun | bank/monitoringBank.py:100 | the leading digit run is all digits and is followed by a non-digit or the end |
| Text.SignOf | bank/monitoringBank.py:100 | removing an optional sign never lengthens the text |
| Text.StripKeeps | bank/monitoringBank.py:94 | a text with non-space ends is its own `strip()` |
| Text.StripDigits | bank/monitoringBank.py:107 | a run of digits is its own `strip()` |
| Text.IntOfNatToString | bank/monitoringBank.py:107 | `int(str(n)) == n` |
| Text.DecimalOfNatToString | bank/monitoringBank.py:100 | `float(str(n)) == n` |
| Text.ParseInt | bank/monitoringBank.py:107 | `int(s)`: a bare run of digits reads as its decimal value |
| Text.DecimalValue | bank/monitoringBank.py:100 | `float("<a>.<f>")` is `a` plus the fraction the digits `f` spell |
| Text.ParseDecimal | bank/monitoringBank.py:100 | `float(s)`: a bare run of digits reads as its decimal value, as a real (`Text.DecimalValue` states the value of digits with a fraction) |
| Csv.HeaderOnceAppend | mergesort/monitoringMergesort.py:93-97 | appending rows that are not the header keeps a log holding its header once, first |
| Csv.Directory.constructor | mergesort/monitoringMergesort.py:93 | the directory starts with the given files |
| Csv.Directory.Truncate | mergesort/monitoringMergesort.py:107 | `open(name, 'w')` empties that file and changes no other |
| Csv.Directory.Append | mergesort/monitoringMergesort.py:70 | `writerow` adds the row at the end of that file and changes no other |
| Csv.Directory.AppendHeaderIfEmpty | mergesort/monitoringMergesort.py:95-96 | the header is written exactly when the file is empty or missing |
| Sweep.Range | bank/monitoringBank.py:222 | `range(start, stop, step)`: element `i` is `start + i*step`, every element is below `stop`, and the next one would not be |
| Sweep.NoDurations | mergesort/monitoringMergesort.py:111 | `execution_times` starts with an empty dictionary for exactly the listed algorithms |
| Sweep.Record | mergesort/monitoringMergesort.py:100 | storing a duration makes its lookup return it and leaves every other lookup as it was |
| Sweep.TimeRow | mergesort/monitoringMergesort.py:118 | the time-log row is the parameter followed by one `get(key, 'N/A')` per algorithm, in order |
| Sweep.Lookup | mergesort/monitoringMergesort.py:118 | `execution_times[alg].get(key, 'N/A')`; has no contract of its own (`Sweep.Record` states that a stored duration is found and every other lookup is unchanged, `BankSweep.StrLookupMisses` that a key of the other type gives `'N/A'`, `MergesortSweep.MeasuredRow` that a completed row holds the measured durations) |
| Sweep.LogOf | mergesort/monitoringMergesort.py:92 | names the log of an algorithm, `measurement_log_<algorithm>.csv`; has no contract of its own (`Sweep.LogOfInjective` and `Sweep.LogsApart` state that the names are distinct) |
| Sweep.WithHeader | mergesort/monitoringMergesort.py:93-96 | the log after the `st_size == 0` header rule; has no contract of its own (`Sweep.HeaderThenRows` and `Sweep.MeasureKeeps` state what it keeps) |
| Sweep.LoggedLog | mergesort/monitoringMergesort.py:92-97 | after a series of runs, an algorithm's log is its old content under the header rule followed by the rows of its runs in order, or unchanged when it did not run |
| Sweep.LoggedOther | mergesort/monitoringMergesort.py:92-97 | a file that is no run's log exists afterwards exactly when it did before, with the same content |
| Sweep.LoggedTimeLog | mergesort/monitoringMergesort.py:106-119 | writing the time log before or after the runs gives the same files |
| Sweep.LoggedKeeps | mergesort/monitoringMergesort.py:92-97 | runs whose rows are not the header keep every algorithm log's header once and leave the time log unchanged |
| Sweep.FirstStop | bank/monitoringBank.py:222-234 | every step before the first stop ends as `done` and the step there does not: where the bank sweep stops among its measurements, and the chunk monitor (monitoring.py:73-74) among its runs |
| Sweep.OutcomeOfAll | monitoring.py:73-74 | a sweep ends as `done` exactly when every step does, and otherwise as the first step that does not; the bank sweep (bank/monitoringBank.py:222-234) ends the same way |
| Sweep.FirstStopAt | bank/monitoringBank.py:222-234 | a position before which every step ends as `done`, and at which the step does not, is the first stop |
| Sweep.CompletedPast | monitoring.py:73-74 | a step at or before the first stop that ends as `done` lies before it |
| Sweep.LoggedFrame | mergesort/monitoringMergesort.py:92-119 | runs of the listed algorithms, and then a new time log, change no file other than those algorithms' logs and the time log |
| Sweep.OthersKeptTimeLog | mergesort/monitoringMergesort.py:106-119 | rewriting the time log keeps every file other than the logs and the time log as it was |
| Sweep.KeptTransitive | mergesort/monitoringMergesort.py:93-97 | growing a log while keeping its header once composes |
| Sweep.LogOfInjective | mergesort/monitoringMergesort.py:92 | different algorithms write different sample logs |
| Sweep.LogsApart | mergesort/monitoringMergesort.py:92 | no algorithm name of a length other than four writes to the time log |
| Sweep.LogsKeptTransitive | mergesort/monitoringMergesort.py:113-119 | keeping every per-algorithm log composes over consecutive measurements |
| Sweep.TimeLogApart | mergesort/monitoringMergesort.py:106-109 | rewriting the time log keeps every per-algorithm log |
| Sweep.MeasureKeeps | mergesort/monitoringMergesort.py:92-97 | one measurement keeps every per-algorithm log and leaves the time log unchanged |
| Sweep.HeaderThenRows | mergesort/monitoringMergesort.py:95-97 | the header rule followed by non-header rows keeps the log |
| Launch.StartProgram | mergesort/monitoringMergesort.py:24-49 | only the Go launch sets an environment variable, `GOMEMLIMIT` |
| Launch.ChunkCommand | monitoring.py:39-43 | the chunk monitor launches a seven-word command whose sixth word is the chunk |
| Launch.ReadCommand | mergesort/monitoringMergesort.py:28-45 | a program reads parameters only from an eleven-word command line |
| Launch.StartProgramReadBack | mergesort/monitoringMergesort.py:24-49 | whatever the algorithm, the launched program reads back the algorithm, list length, depth, runs and warm-up runs it was given |
| Launch.HeapFlags | mergesort/monitoringMergesort.py:28 | heap flags are found only on a command of at least three words |
| Launch.DepthMemory | mergesort/monitoringMergesort.py:28-45 | the depth sweep gives every runtime 4 GB |
| Launch.ListLengthMemory | mergesort/list_length/monitoringMergesort.py:27-44 | the list-length sweep gives Kotlin and Go 8 GB and the Java jar 4 GB |
| Launch.DepthCommand | mergesort/monitoringMergesort.py:24-49 | the depth sweep's program reads back its algorithm, list length `10000000`, the depth, 10 runs and no warm-up runs |
| Launch.ListLengthCommand | mergesort/list_length/monitoringMergesort.py:23-48 | the list-length sweep's program reads back its algorithm, the list length, the depth, 10000 runs and 10 warm-up runs |
| Readiness.BankWait | bank/monitoringBank.py:171-177 | the bank gate reads no more lines than there are |
| Readiness.Printed | bank/monitoringBank.py:172-174 | the gate echoes at most one line per line read |
| Readiness.PrintedSnoc | bank/monitoringBank.py:172-174 | the gate echoes a line exactly when its stripped text is not empty |
| Readiness.BankWaitStops | bank/monitoringBank.py:171-177 | the bank gate stops at the first line whose stripped text holds the marker, or at end of stream |
| Readiness.BankWaitAt | bank/monitoringBank.py:171-177 | one line of the bank gate either ends it or passes on to the next line |
| Readiness.AwaitImport | bank/monitoringBank.py:171-177 | the gate loop stops where `BankWait` says and echoes the non-empty stripped lines it read |
| Readiness.FirstWith | mergesort/monitoringMergesort.py:84-89 | the line found is the first that holds the marker, and none is found only when no line holds it |
| Readiness.AwaitMarker | mergesort/monitoringMergesort.py:84-89 | the `while True` gate is ready exactly when some line holds the marker, after reading up to and including the first such line; otherwise it waits for ever |
| Readiness.FirstIsFirst | mergesort/monitoringMergesort.py:84-89 | a line that holds the marker with no earlier line holding it is the one found |
| ProcessSampler.SampleRun | mergesort/monitoringMergesort.py:59-75 | the loop runs over the leading polls that are samples and stops at the first that is not |
| ProcessSampler.CpuCell | mergesort/monitoringMergesort.py:65-68 | the CPU cell of one poll; has no contract of its own (`ProcessSampler.CpuWhenDue` and `ProcessSampler.CpuFirstWhenDue` state when it holds a reading) |
| ProcessSampler.RowAt | mergesort/monitoringMergesort.py:61-70 | the row one poll writes; has no contract of its own (`ProcessSampler.RowsUpToAt` and `ProcessSampler.RowsMeaning` state its cells) |
| ProcessSampler.Rows | mergesort/monitoringMergesort.py:51-78 | everything the sampler writes; has no contract of its own (`ProcessSampler.RowsMeaning` states it row by row) |
| ProcessSampler.RowsUpTo | mergesort/monitoringMergesort.py:59-71 | one row per poll |
| ProcessSampler.RowsUpToAt | mergesort/monitoringMergesort.py:70 | row `k` is the row of poll `k` |
| ProcessSampler.RowsMeaning | mergesort/monitoringMergesort.py:51-78 | the sampler writes nothing when attaching fails, and otherwise one row per sample poll: the key, the time since attaching, the throttled CPU share of all cores, the RSS in MiB and the thread count |
| ProcessSampler.MarkGrows | mergesort/monitoringMergesort.py:66-68 | `last_cpu_measurement_time` never moves backwards |
| ProcessSampler.CpuAtMostEveryTwoSeconds | mergesort/monitoringMergesort.py:66-68 | two CPU readings are at least two seconds apart |
| ProcessSampler.MarkBeforeFirstReading | mergesort/monitoringMergesort.py:56-68 | until the first CPU reading the mark is the one taken when attaching |
| ProcessSampler.MarkAfterReading | mergesort/monitoringMergesort.py:66-68 | after a CPU reading, and none since, the mark is the one stored at that reading |
| ProcessSampler.CpuWhenDue | mergesort/monitoringMergesort.py:65-68 | a poll reports the CPU exactly when two seconds have passed since the previous reading |
| ProcessSampler.CpuFirstWhenDue | mergesort/monitoringMergesort.py:55-68 | before any reading, a poll reports the CPU exactly when two seconds have passed since attaching |
| ProcessSampler.EndOf | mergesort/monitoringMergesort.py:52-59 | the polls run out before the loop ends exactly when attaching succeeded and every poll is a sample |
| ProcessSampler.RecordProcessStats | mergesort/monitoringMergesort.py:51-78 | the log grows by exactly the sampler's rows, no other file changes, and the outcome says whether the loop ended or its polls ran out |
| ChunkSampler.SampledShape | monitoring.py:23-33 | one row per poll up to the first that finishes, vanishes or takes longer than 0.2 seconds (its row included); the negative sleep raises exactly when the last row's poll overran, and otherwise the loop ends for the poll after the last row |
| ChunkSampler.SampledAt | monitoring.py:23-33 | one pass of the loop either ends it or writes its row and goes on |
| ChunkSampler.RecordProcessStats | monitoring.py:17-33 | a missing process raises without a row; otherwise the log grows by exactly the sampled rows |
| ChunkSampler.Sampled | monitoring.py:17-33 | the rows the sampler writes and how it ends; has no contract of its own (`ChunkSampler.SampledShape` states both) |
| BankStats.UnitValue | bank/monitoringBank.py:103-105 | removing the unit yields a number, or a `ValueError` for this memory field |
| BankStats.NormaliseUsed | bank/monitoringBank.py:101-105 | the memory stays text exactly when it contains neither `MB` nor `GB`; otherwise it is a number or a `ValueError` (which number: `BankStats.DecimalUnits`) |
| BankStats.NormaliseMemory | bank/monitoringBank.py:101-105 | the memory field becomes text or a number; text is exactly the upper-cased part before `/`, and a failure is this field's `ValueError` |
| BankStats.ParseStatsLine | bank/monitoringBank.py:99-107 | the line parses exactly when it splits into three fields at the commas, the CPU field without `%` is a decimal, the memory field normalises and the PID field is an integer; it fails on the field count exactly when there are not three fields, and with a CPU error exactly when there are three and the CPU field is no decimal; a parsed memory value is text or a number |
| BankStats.FirstSlashField | bank/monitoringBank.py:101 | the part before `/` of `x / limit` is `x ` |
| BankStats.UpperNumberUnit | bank/monitoringBank.py:101 | upper-casing a number and a unit changes only the unit |
| BankStats.UsedPart | bank/monitoringBank.py:101 | the used part of `<num><unit> / <limit>` is `<num><unit>` upper-cased |
| BankStats.NoUnitIn | bank/monitoringBank.py:102-104 | a two-letter unit does not occur in a number followed by a different unit |
| BankStats.MebibytesStayText | bank/monitoringBank.py:101-105 | `"<num>MiB / <limit>"` stays the text `<num>MIB` |
| BankStats.GibibytesStayText | bank/monitoringBank.py:101-105 | `"<num>GiB / <limit>"` stays the text `<num>GIB` |
| BankStats.ReplaceTrailingUnit | bank/monitoringBank.py:103 | removing a trailing unit gives back the number in front of it |
| BankStats.NumberBeforeUnit | bank/monitoringBank.py:103 | `str(n)` followed by a unit reads back as `n` once the unit is removed |
| BankStats.UnitLine | bank/monitoringBank.py:101-102 | the used text of `"<n><unit> / <limit>"` is `<n><unit>` and contains the unit |
| BankStats.MegabytesAreNumbers | bank/monitoringBank.py:102-103 | `"<n>MB / <limit>"` becomes the number `n` |
| BankStats.GigabyteText | bank/monitoringBank.py:104-105 | the used text of `"<n>GB / <limit>"` takes the `GB` branch with the number `n` |
| BankStats.GigabytesAreScaled | bank/monitoringBank.py:104-105 | `"<n>GB / <limit>"` becomes `n * 1024` |
| BankStats.DecimalUnitText | bank/monitoringBank.py:101-105 | for a decimal reading `d` with unit `MB` or `GB`, the used text is `d` plus the unit, it contains the unit, and with the unit removed it parses to `d`'s value |
| BankStats.DecimalUnits | bank/monitoringBank.py:101-105 | a decimal docker reading `"<d>MB / <limit>"` becomes the value of `d`, and `"<d>GB / <limit>"` that value times 1024 |
| BankStats.FieldsParse | bank/monitoringBank.py:99-107 | a line whose three fields each parse yields the sample of their values |
| BankStats.StatsFields | bank/monitoringBank.py:99 | a rendered stats line splits into its three fields |
| BankStats.PercentField | bank/monitoringBank.py:100 | a decimal CPU field followed by `%` is that decimal again once the percent sign is stripped |
| BankStats.MemoryFieldCommaFree | bank/monitoringBank.py:99 | the memory field of a rendered line holds no comma |
| BankStats.StatsLineRoundTrip | bank/monitoringBank.py:99-107 | a line in docker's form `<c>%,<d>MB / <limit>,<n>`, with decimals `c` and `d`, parses back to the values of `c` and `d` and to `n` |
| BankStats.CpuReading | bank/monitoringBank.py:100 | docker's CPU reading `0.15` is a decimal with the value 0.15 |
| BankStats.MemoryReading | bank/monitoringBank.py:102-103 | docker's memory reading `512.3` is a decimal with the value 512.3 |
| ContainerSampler.SampleRow | bank/monitoringBank.py:144 | the row is `[transactions, elapsed, cpu, memory, pids]` |
| ContainerSampler.StepOf | bank/monitoringBank.py:83-151 | an iteration that writes writes a five-cell row tagged with the transaction count |
| ContainerSampler.PollStep | bank/monitoringBank.py:94-144 | an iteration with stats output that writes writes a five-cell row tagged with the transaction count |
| ContainerSampler.InspectStep | bank/monitoringBank.py:115-144 | once the line has parsed, an iteration that writes writes exactly the parsed sample |
| ContainerSampler.Run | bank/monitoringBank.py:82-154 | the loop writes at most one row per poll |
| ContainerSampler.Writing | bank/monitoringBank.py:82-154 | the writing polls come first, and the poll after them ends the loop |
| ContainerSampler.RunIsPrefix | bank/monitoringBank.py:82-154 | the loop writes exactly the rows of the polls before the first that ends it, and ends for that poll's reason or because the polls ran out |
| ContainerSampler.RunAt | bank/monitoringBank.py:82-154 | one iteration either ends the loop or puts its row in front of the rest |
| ContainerSampler.RowsAreTagged | bank/monitoringBank.py:144 | every row written is `[transactions, ...]` with five cells |
| ContainerSampler.EmptyOutputStops | bank/monitoringBank.py:94-97 | empty `docker stats` output ends the loop with "not found" and writes nothing |
| ContainerSampler.ExitedWritesNothing | bank/monitoringBank.py:122-139 | a container reported as `exited` ends the loop without a row, whatever its exit code |
| ContainerSampler.ExitCodeReadBack | bank/monitoringBank.py:131 | the exit code as `docker inspect` prints it is the code the loop reports |
| ContainerSampler.AliveWritesSample | bank/monitoringBank.py:122-144 | a status other than `exited` writes the parsed sample |
| ContainerSampler.RunningPollWritesItsNumbers | bank/monitoringBank.py:94-144 | a running container whose stats line is in docker's decimal form gets exactly the values of its CPU, memory and PID fields written, after the transaction count and the elapsed time |
| ContainerSampler.AppendUntilHalt | bank/monitoringBank.py:82-154 | the loop appends exactly the rows `Run` gives and ends for its reason |
| ContainerSampler.RecordProcessStats | bank/monitoringBank.py:80-154 | `record_process_stats` appends exactly the sampler's rows and ends for its reason |
| ContainerSampler.Sampler | bank/monitoringBank.py:83-144 | one pass of the loop for a transaction count and start time; has no contract of its own (`ContainerSampler.StepOf` and `ContainerSampler.RunningPollWritesItsNumbers` state what it writes) |
| Compose.Set | bank/monitoringBank.py:35-71 | an assignment that succeeds leaves a mapping |
| Compose.SetSucceeds | bank/monitoringBank.py:35-71 | an assignment succeeds exactly when every step above the key exists and is a mapping |
| Compose.SetGet | bank/monitoringBank.py:35-71 | after the assignment the path holds the value |
| Compose.SetOther | bank/monitoringBank.py:35-71 | the assignment changes no path that is neither above nor below it |
| Compose.Get | bank/monitoringBank.py:35-71 | reads `d[p0][p1]...`; has no contract of its own (`Compose.SetGet`, `Compose.SetOther` and `Compose.GetAbove` state how it reads after an assignment) |
| Compose.SetAbove | bank/monitoringBank.py:35-71 | every mapping above the assigned path is still a mapping afterwards |
| Compose.GetAbove | bank/monitoringBank.py:35-71 | a step above an existing path is a mapping |
| Compose.SetKeepsSettable | bank/monitoringBank.py:35-71 | an assignment leaves every compatible later assignment possible exactly when it was possible before |
| Compose.LastAssignedNone | bank/monitoringBank.py:35-71 | nothing was assigned to a key exactly when no statement names it |
| Compose.ApplySucceeds | bank/monitoringBank.py:35-71 | the statements succeed exactly when each could be made on the template |
| Compose.ApplyGet | bank/monitoringBank.py:35-71 | an assigned key holds its last value and an unrelated key is unchanged |
| Compose.LeafPair | bank/monitoringBank.py:35-71 | any two keys the rewrite assigns are compatible |
| Compose.LeafSettable | bank/monitoringBank.py:35-71 | an environment key can be assigned exactly when the bank service has an environment mapping, and every key can be when it has one |
| Compose.TouchedIsLeaf | bank/monitoringBank.py:35-71 | every key the rewrite may assign is a leaf of the bank service |
| Compose.AssignmentsAreLeaves | bank/monitoringBank.py:35-71 | the rewrite's statements assign leaves only, pairwise compatible |
| Compose.LastAssignedAppend | bank/monitoringBank.py:35-71 | the last value of a key after two blocks of statements comes from the second block if it names the key |
| Compose.LastAssignedOne | bank/monitoringBank.py:35-71 | one statement assigns only its own key |
| Compose.PathsDistinct | bank/monitoringBank.py:35-71 | the seven assigned keys are pairwise different |
| Compose.RuntimeStepsLast | bank/monitoringBank.py:37-67 | the statements of a known algorithm leave each key as its table says |
| Compose.FrameLast | bank/monitoringBank.py:35-71 | the volume statement first and the two counts last frame the algorithm's statements |
| Compose.KnownKeyFollowsTable | bank/monitoringBank.py:37-67 | for a known algorithm, each key the algorithm part may set ends as its table says |
| Compose.KnownCountFollowsTable | bank/monitoringBank.py:70-71 | the account and transaction counts end as given |
| Compose.AssignmentsFollowTable | bank/monitoringBank.py:35-71 | the last value assigned to each key is the one the rewrite's table gives: image, `ALGORITHM`, volume, SQL settings, counts, and nothing for an unknown algorithm |
| Compose.RewriteSucceeds | bank/monitoringBank.py:31-71 | the rewrite raises exactly when the template lacks the bank service's environment mapping |
| Compose.RewriteFollowsTable | bank/monitoringBank.py:35-71 | after a successful rewrite each of the seven keys holds what the table gives and every other key keeps its template value |
| Compose.RuntimeOf | bank/monitoringBank.py:37-67 | an algorithm has its own block of assignments exactly when it is `platform`, `virtual`, `coroutines` or `goroutines`, and that block's image is `bank-java`, `bank-kotlin` or `bank-go` |
| Compose.Rewrite | bank/monitoringBank.py:35-71 | the rewrite of a loaded template; has no contract of its own (`Compose.RewriteSucceeds` and `Compose.RewriteFollowsTable` state when it raises and what it writes) |
| Compose.TemplateFor | bank/monitoringBank.py:25-29 | the template name is empty exactly when the interface is neither `REST` nor `SQL` |
| Compose.Modify | bank/monitoringBank.py:23-71 | the rewrite succeeds exactly when the interface's template exists and has the bank service's environment mapping; a missing template raises naming the file `open` was given |
| Compose.OutputIsNoTemplate | bank/monitoringBank.py:25-74 | the file written is never a template the rewrite reads |
| Compose.ModifyReadsTemplate | bank/monitoringBank.py:31-74 | a stored rewrite leaves every later rewrite as it would have been |
| Compose.ComposeFiles.constructor | bank/monitoringBank.py:31 | the files start as given |
| Compose.ComposeFiles.ModifyDockerComposeFile | bank/monitoringBank.py:23-77 | on success the rewritten template is stored as `docker-compose_modify.yaml`; on failure no file changes |
| BankSweep.CountsAre | bank/monitoringBank.py:222 | the transaction counts are 100000, 200000 and 300000 |
| BankSweep.Counts | bank/monitoringBank.py:222 | `range(100000, int(NUMBER_OF_TRANSACTIONS) + 1, 100000)`; has no contract of its own (`BankSweep.CountsAre` states its values) |
| BankSweep.Measure | bank/monitoringBank.py:157-200 | the log gets the header rule and the sampler's rows; a completed run stores its duration under the integer count, and any other outcome stores none |
| BankSweep.SampleInto | bank/monitoringBank.py:183-191 | the log gets the header when it was empty, then the rows `record_process_stats` writes until it stops |
| BankSweep.SampledAreNotHeader | bank/monitoringBank.py:186-191 | the sampler's rows are never the header |
| BankSweep.Sampled | bank/monitoringBank.py:191 | the trace of `record_process_stats` for one observation; has no contract of its own (`BankSweep.SampledAreNotHeader` states that no row is the header) |
| BankSweep.RecordKeyed | bank/monitoringBank.py:198 | storing a duration under an integer count keeps every key an integer |
| BankSweep.EffectsAreHeaderless | bank/monitoringBank.py:183-191 | no measurement's trace holds the header row |
| BankSweep.RewritesAlike | bank/monitoringBank.py:231 | either every compose rewrite of the sweep succeeds or every one raises |
| BankSweep.Runs | bank/monitoringBank.py:184-191 | one log append per measurement, each that measurement's trace rows for its algorithm |
| BankSweep.Outcomes | bank/monitoringBank.py:231-234 | one outcome per measurement: an exception when its rewrite raises, otherwise as its sampler stops |
| BankSweep.MeasurementOutcome | bank/monitoringBank.py:231-234 | how one measurement ends; has no contract of its own (`BankSweep.MeasureOne` states that the method ends this way) |
| BankSweep.Took | bank/monitoringBank.py:194-195 | the duration `measure` stores; has no contract of its own (`BankSweep.Measure` states where it is stored) |
| BankSweep.RoundOf | bank/monitoringBank.py:228 | one measurement per algorithm, in order, for the count |
| BankSweep.Schedule | bank/monitoringBank.py:222-228 | one round per count: as many measurements as counts times algorithms |
| BankSweep.RoundInSchedule | bank/monitoringBank.py:222-228 | with the one algorithm, the round of count `i` is measurement `i` of the schedule |
| BankSweep.Wrote | bank/monitoringBank.py:222-234 | the measurements whose rewrite ran before the sweep stopped: at least those that completed, and every one with a rewrite that succeeded |
| BankSweep.ComposeAfter | bank/monitoringBank.py:231 | the compose files after some measurements: as they were, but for the last successful rewrite stored in the output file |
| BankSweep.StrLookupMisses | bank/monitoringBank.py:241-242 | a lookup by `str(transactions)` never finds what was stored under the integer, so it gives `'N/A'` |
| BankSweep.NaRow | bank/monitoringBank.py:239-244 | the time-log row has one cell per algorithm after the count |
| BankSweep.NaRows | bank/monitoringBank.py:222-244 | one such row per count, in order |
| BankSweep.TimeRowOf | bank/monitoringBank.py:239-244 | the row the loop assembles is the count followed by `'N/A'` for every algorithm, which is also what the lookups give |
| BankSweep.MeasureAll | bank/monitoringBank.py:228-236 | one count's measurements end as the first that does not complete; each algorithm log is exactly its header rule and the trace rows of the measurements that ran, the compose files hold the last successful rewrite, and the time log and every other file are unchanged; durations stay under integer keys |
| BankSweep.MeasureOne | bank/monitoringBank.py:231-234 | a rewrite that raises changes nothing and crashes; otherwise the output file holds the rewrite, the log gets the header rule and the trace, and a completed run stores its duration |
| BankSweep.MeasureCount | bank/monitoringBank.py:228-244 | one pass of the count loop: a round that completes leaves the logs, the time log and the compose files as the sweep of one more count; one that does not is where the whole sweep stops and ends |
| BankSweep.LogCount | bank/monitoringBank.py:239-244 | after a completed round the time log gets the count's `'N/A'` row, which makes the files those of the sweep of one more count |
| BankSweep.RoundCompleted | bank/monitoringBank.py:222-234 | a completed round at or before the first stop lies before it, and is the schedule's next measurement |
| BankSweep.MeasureCounts | bank/monitoringBank.py:222-244 | the sweep stops after the counts before the first whose measurements do not complete and ends as that measurement; the time log grows by one `'N/A'` row per finished count, each algorithm log is exactly the runs that wrote, the compose files hold the last rewrite, and no other file changes |
| BankSweep.Monitor | bank/monitoringBank.py:203-244 | the time log is its header followed by one `'N/A'` row per finished count; the outcome, algorithm logs and compose files are as for the sweep of all counts, and no other file changes |
| BankSweep.SweepRestarted | bank/monitoringBank.py:209-212 | truncating the time log before the sweep is the same as replacing it afterwards, and keeps every other file |
| MergesortSweep.AlgorithmsDistinct | mergesort/monitoringMergesort.py:9 | the four algorithm names are different |
| MergesortSweep.Measure | mergesort/monitoringMergesort.py:80-101 | a measurement hangs exactly when the warm-up line never appears, and then nothing changes; otherwise it appends the header rule and the sampler's rows, and it completes, storing the duration under the parameter string, exactly when the sampler's loop ended within its polls |
| MergesortSweep.RowsAreNotHeader | mergesort/monitoringMergesort.py:95-97 | a sampler row is never a header whose first cell differs from its key |
| MergesortSweep.NameIsNotNumber | mergesort/monitoringMergesort.py:95-96 | a column name that is not all digits is never `str(n)` |
| MergesortSweep.DurationRow | mergesort/monitoringMergesort.py:118 | the time-log row is the parameter followed by each algorithm's measured duration |
| MergesortSweep.DurationRows | mergesort/monitoringMergesort.py:113-119 | one such row per parameter, in order |
| MergesortSweep.Round | mergesort/monitoringMergesort.py:114-115 | one launch per algorithm, in order |
| MergesortSweep.Plan | mergesort/monitoringMergesort.py:113-115 | one launch per algorithm and parameter |
| MergesortSweep.PlanAt | mergesort/monitoringMergesort.py:113-115 | launch `i*4 + k` is algorithm `k` for parameter `i` |
| MergesortSweep.TimeRowOf | mergesort/monitoringMergesort.py:118 | the row the loop assembles is the parameter followed by the lookups by its string |
| MergesortSweep.MeasuredRow | mergesort/monitoringMergesort.py:118 | when every algorithm completed, the row holds their durations |
| MergesortSweep.MeasuredRecord | mergesort/monitoringMergesort.py:100 | storing one more duration keeps the earlier algorithms' lookups |
| MergesortSweep.MeasureAll | mergesort/monitoringMergesort.py:114-116 | a completed pass launches one program per algorithm in order and stores every duration; a hang or an unfinished sampler stops after a prefix of those launches; each algorithm log is exactly its header rule and the rows of the runs that wrote, and the time log and every other file are unchanged |
| MergesortSweep.WriteRow | mergesort/monitoringMergesort.py:118-119 | the time log grows by exactly the parameter's duration row |
| MergesortSweep.MeasureParam | mergesort/monitoringMergesort.py:114-119 | one parameter value: when every algorithm completes, the time log grows by exactly its duration row and its whole round is launched; otherwise the time log is unchanged and a non-empty prefix of the round was launched; either way each algorithm log is exactly its runs under the header rule and no other file changes |
| MergesortSweep.SweepAdvances | mergesort/monitoringMergesort.py:113-119 | after a completed round the time log holds the rows of one more parameter value and the launches are the plan of one more value |
| MergesortSweep.SweepCutShort | mergesort/monitoringMergesort.py:113-116 | the launches of a round cut short lie strictly between the plan before it and the plan including it |
| MergesortSweep.MeasureParams | mergesort/monitoringMergesort.py:113-119 | the time log grows by one duration row per finished parameter, all of them when completed, and the launches are the plan's prefix; each algorithm log is exactly its runs under the header rule, and no other file changes |
| MergesortSweep.SweepLog | mergesort/monitoringMergesort.py:113-116 | after the sweep, an algorithm's log is its old content under the header rule followed by its rows for every parameter |
| MergesortSweep.SweepOther | mergesort/monitoringMergesort.py:113-116 | the sweep keeps every file that is not an algorithm log |
| MergesortSweep.SweepRestarted | mergesort/monitoringMergesort.py:107-109 | truncating the time log before the sweep is the same as replacing it afterwards, and keeps every other file |
| DepthSweep.Depths | mergesort/monitoringMergesort.py:113 | the depths are `range(0, MAX_DEPTH)` |
| DepthSweep.DepthsAre | mergesort/monitoringMergesort.py:13 | the depths are 0 to 3 |
| DepthSweep.HeaderIsNotADepth | mergesort/monitoringMergesort.py:96 | no depth string is the header's first cell |
| DepthSweep.Monitor | mergesort/monitoringMergesort.py:103-119 | the time log is its header followed by one duration row per finished depth, after the launches the plan gives; each algorithm log is exactly its runs under the header rule, and no other file changes |
| ListLengthSweep.LengthsFrom | mergesort/list_length/monitoringMergesort.py:112-119 | the lengths start at the first value, grow tenfold and never exceed the limit |
| ListLengthSweep.LengthsAre | mergesort/list_length/monitoringMergesort.py:112-119 | the lengths are 1000 to 10000000 |
| ListLengthSweep.Lengths | mergesort/list_length/monitoringMergesort.py:112-119 | the list lengths of the `while` loop; has no contract of its own (`ListLengthSweep.LengthsFrom` and `ListLengthSweep.LengthsAre` state them) |
| ListLengthSweep.HeaderIsNotALength | mergesort/list_length/monitoringMergesort.py:95 | no length string is the header's first cell |
| ListLengthSweep.Monitor | mergesort/list_length/monitoringMergesort.py:102-119 | the time log is its header followed by one duration row per finished length, after the launches the plan gives; each algorithm log is exactly its runs under the header rule, and no other file changes |
| ChunkSweep.Chunks | monitoring.py:73 | the chunks are `range(0, 10)` |
| ChunkSweep.ChunksAre | monitoring.py:73 | the chunks are 0 to 9 |
| ChunkSweep.ChunkName | monitoring.py:74 | the chunk number passed to `measure` reads back as the chunk plus one |
| ChunkSweep.Measure | monitoring.py:35-60 | a run hangs exactly when the import line never appears, and then nothing changes; otherwise the log grows by exactly the sampler's rows and no other file changes |
| ChunkSweep.RecordedNotHeader | monitoring.py:70-74 | every row of a run starts with its chunk number, so it is never the header |
| ChunkSweep.OneMoreRun | monitoring.py:73-74 | one more run extends the log by its rows and keeps the header once |
| ChunkSweep.Outcomes | monitoring.py:73-74 | one outcome per chunk: hanging when the import line never appears, otherwise as its sampler ends |
| ChunkSweep.RunOutcome | monitoring.py:46-54 | how one run ends; has no contract of its own (`ChunkSweep.Measure` and `ChunkSweep.MeasureRun` state that a run ends this way) |
| ChunkSweep.Sampling | monitoring.py:73-74 | the runs that wrote rows: those that completed, and the run that stopped unless it hung |
| ChunkSweep.SweepEnd | monitoring.py:46-74 | a completed monitor sampled every chunk; a hanging one stopped at a chunk whose import line never appears; one that raised or ran out of polls ends as the sampler of the last chunk it sampled |
| ChunkSweep.ChunksEnd | monitoring.py:73-74 | the loop's stopping point and outcome are the first stop of the chunks' outcomes |
| ChunkSweep.MeasureRun | monitoring.py:74 | one run ends with its chunk's outcome; a hang changes nothing, otherwise the log grows by exactly that run's rows |
| ChunkSweep.Commands | monitoring.py:39-43 | one launch per chunk, with that chunk's number |
| ChunkSweep.MeasureChunks | monitoring.py:73-74 | the loop ends as the first run that does not complete; the log grows by exactly the rows of the runs that wrote, keeps its header once, no other file changes, and the launches are one per chunk started |
| ChunkSweep.Monitor | monitoring.py:62-74 | the log is the header followed by the rows of every run that wrote, and no other file changes; the monitor completes after all ten chunks and a hang stops before the last; the outcome is that of the first run that does not complete |
| Frames.ToNumeric | mergesort/plottingMergesortBar.py:51-54 | `to_numeric(errors='coerce')` on one cell; has no contract of its own (`Frames.NumberReadsBack` states that a written number reads back as itself, `Frames.NaIsNaN` that `'N/A'` becomes NaN, `Frames.UnitIsNaN` that a reading with a unit becomes NaN) |
| Frames.NumberReadsBack | mergesort/plottingMergesortBar.py:72-77 | a number written with `str(n)` reads back as `n` |
| Frames.NaIsNaN | mergesort/plottingMergesortBar.py:72-77 | the `'N/A'` of a missing duration reads back as NaN |
| Frames.UnitIsNaN | bank/plottingBankBar.py:43 | a memory reading such as `512.00MIB` reads back as NaN |
| Frames.ColumnIndex | mergesort/plottingMergesortBar.py:50-51 | the column found is the first with that name, and none is found only when the header lacks it |
| Frames.NumericColumn | mergesort/plottingMergesortBar.py:50-54 | a column can be read exactly when the file has a header naming it; it then holds one coerced value per row |
| Frames.Scaled | bank/plottingBankBar.py:42-45 | dividing a column keeps NaN and divides every number |
| GroupBy.Max | mergesort/plottingMergesortBar.py:56-60 | the maximum is one of the numbers and at least every number; none for no numbers |
| GroupBy.Min | mergesort/plottingMergesortBar.py:62-66 | the minimum is one of the numbers and at most every number; none for no numbers |
| GroupBy.Mean | mergesort/plottingMergesortBar.py:62-66 | the mean is NaN exactly for no numbers |
| GroupBy.MeanBetween | mergesort/plottingMergesortBar.py:62-66 | the mean lies between the minimum and the maximum |
| GroupBy.Group | mergesort/plottingMergesortBar.py:56-66 | a group holds exactly the numbers of the rows with its key |
| GroupBy.Keys | mergesort/plottingMergesortBar.py:56 | the groups are exactly the keys that are not NaN |
| GroupBy.GroupMax | mergesort/plottingMergesortBar.py:56-60 | `agg(max)` has one entry per group |
| GroupBy.GroupMean | mergesort/plottingMergesortBar.py:62-66 | `agg(mean)` has one entry per group |
| GroupBy.GroupMaxIsMax | mergesort/plottingMergesortBar.py:56-60 | a group's maximum is at least each of its numbers and is one of them; it is NaN only when the group has no number |
| GroupBy.GroupMeanBetween | mergesort/plottingMergesortBar.py:62-66 | a group's mean is NaN exactly when its maximum is, and otherwise lies between its minimum and maximum |
| Reduction.NumericColumns | bank/plottingBankBar.py:41-45 | the coercions succeed exactly when every column can be read, giving each column |
| Reduction.FirstMissingColumn | bank/plottingBankBar.py:41-45 | a failed coercion has the error of the first column the log cannot give |
| Reduction.Reduce | bank/plottingBankBar.py:48-60 | a reduction has one entry per group |
| Reduction.GroupAll | bank/plottingBankBar.py:48-60 | the reduced frame holds exactly the metrics, each column reduced by the key |
| Reduction.ReducedMeaning | bank/plottingBankBar.py:37-63 | a reduced log holds, for every metric, the group maxima and means of its coerced, rescaled column |
| Reduction.ReduceLog | bank/plottingBankBar.py:41-60 | the coercions and the two `groupby` reductions of one log; has no contract of its own (`Reduction.ReducedMeaning` states what it holds) |
| Reduction.MeanAtMostMax | bank/plottingBankBar.py:48-60 | within every group of a reduced log the mean is at most the maximum and is NaN exactly when the maximum is |
| Reduction.ReadFile | bank/plottingBankBar.py:38 | `read_csv` succeeds exactly when the file exists, giving its rows |
| Reduction.ReductionsSucceed | bank/plottingBankBar.py:37-63 | the loop succeeds exactly when every log can be read and reduced |
| Reduction.ReductionsValues | bank/plottingBankBar.py:37-63 | after a successful loop both dictionaries hold exactly the algorithms, each with its log's reduction |
| Reduction.ReductionsFirstFailing | bank/plottingBankBar.py:37-63 | a failed loop fails with the error of the first algorithm whose log cannot be read or reduced |
| Reduction.ReducedHolds | bank/plottingBankBar.py:48-60 | a reduced log holds every metric, with the same groups for the maximum and the mean |
| Reduction.ReductionsHold | bank/plottingBankBar.py:37-63 | after the loop every metric is held for every algorithm |
| Reduction.ReduceLogs | bank/plottingBankBar.py:37-63 | the loop's result is the reduction of the logs in order, stopping at the first failure |
| Reduction.Reductions | bank/plottingBankBar.py:37-63 | the loop over the algorithms; has no contract of its own (`Reduction.ReduceLogs`, `Reduction.ReductionsSucceed` and `Reduction.ReductionsValues` state its result) |
| Reduction.ReductionsNext | bank/plottingBankBar.py:37-63 | one more algorithm adds its reduction to both dictionaries |
| Reduction.ReductionsFailureStays | bank/plottingBankBar.py:37-63 | once an algorithm fails, the loop ends with its error |
| Reduction.CollectSucceeds | bank/plottingBankBar.py:37-63 | filling the dictionaries from the per-algorithm passes succeeds exactly when every pass does |
| Reduction.CollectKeys | bank/plottingBankBar.py:37-63 | after a successful fill both dictionaries hold exactly the algorithms |
| Reduction.CollectValues | bank/plottingBankBar.py:37-63 | after a successful fill each algorithm holds its own pass's maxima and means, when the same algorithm always gives the same pass |
| Reduction.CollectFirstFailing | bank/plottingBankBar.py:37-63 | a failed fill ends with the error of its first failing pass, every earlier pass having succeeded |
| Reduction.CollectNext | bank/plottingBankBar.py:37-63 | one more pass adds its algorithm to both dictionaries, or ends the fill with its error |
| Reduction.CollectFailureStays | bank/plottingBankBar.py:37-63 | once a pass fails, later algorithms do not change the outcome |
| Reduction.ByName | bank/plottingBankBar.py:48-60 | the dictionary built from the metric names holds exactly those names, each with its own column |
| Aggregate.Trunc | mergesort/plottingMergesortBar.py:80-81 | `int(x)` truncates toward zero |
| Aggregate.TruncMonotone | mergesort/plottingMergesortBar.py:80-81 | truncation keeps order |
| Aggregate.TruncWhole | mergesort/plottingMergesortBar.py:80-81 | a whole number truncates to itself |
| Aggregate.RoundToZero | mergesort/plottingMergesortBar.py:80-81 | `round_to_zero` raises exactly on NaN and otherwise truncates |
| Aggregate.ColumnsDiffer | mergesort/plottingMergesortBar.py:94-95 | column names of different algorithms, or of the maximum and the mean, never coincide |
| Aggregate.Shifted | mergesort/plottingMergesortBar.py:93 | the shifted keys are exactly the groups plus the offset |
| Aggregate.CombinedCells | mergesort/plottingMergesortBar.py:92-96 | the combined rows are the groups plus the offset, each holding the truncated maximum and mean |
| Aggregate.Combined | mergesort/plottingMergesortBar.py:92-96 | the combined frame exists exactly when no group is NaN and then has the key and the algorithm's two columns |
| Aggregate.Merge | mergesort/plottingMergesortBar.py:101 | the outer merge has the left columns then the right data columns, and the keys of both |
| Aggregate.AggregatedKeys | mergesort/plottingMergesortBar.py:87-101 | the merged table has every key of every combined frame, and no other |
| Aggregate.StepKeys | mergesort/plottingMergesortBar.py:98-101 | one pass of the merge loop keeps the keys it had and adds those of the combined frame |
| Aggregate.Step | mergesort/plottingMergesortBar.py:98-101 | one pass of the merge loop; has no contract of its own (`Aggregate.StepKeys` and `Aggregate.AggregatedOfEmpty` state it) |
| Aggregate.Aggregated | mergesort/plottingMergesortBar.py:85-101 | the merge loop over the combined frames; has no contract of its own (`Aggregate.AggregatedKeys` and `Aggregate.AggregatedColumns` state its keys and columns) |
| Aggregate.AggregatedOfEmpty | mergesort/plottingMergesortBar.py:98-99 | frames without rows only ever replace one another |
| Aggregate.AggregatedColumns | mergesort/plottingMergesortBar.py:87-101 | the columns are those of the first frame with a row, then the data columns of every later frame |
| Aggregate.FirstRow | mergesort/plottingMergesortBar.py:98-99 | when only the last frame has rows, it alone is the merged table |
| Aggregate.NextRow | mergesort/plottingMergesortBar.py:100-101 | a frame after the first frame with a row is merged in |
| Aggregate.AggregatedCell | mergesort/plottingMergesortBar.py:87-101 | a cell of a frame whose column no other frame has survives the merge |
| Aggregate.AggregatedCellsFrom | mergesort/plottingMergesortBar.py:87-101 | every cell of the merged table comes from some combined frame |
| Aggregate.Tables | mergesort/plottingMergesortBar.py:87-96 | one combined frame per algorithm |
| Aggregate.TablesNext | mergesort/plottingMergesortBar.py:87-101 | one more algorithm that does not raise adds its combined frame |
| Aggregate.AggregatedSnoc | mergesort/plottingMergesortBar.py:98-101 | merging one more frame is one pass of the loop |
| Aggregate.SaveAggregated | mergesort/plottingMergesortBar.py:84-104 | the loop gives the merged table exactly when no algorithm has a NaN group, and otherwise raises `round_to_zero`'s `ValueError` |
| Aggregate.Saved | mergesort/plottingMergesortBar.py:84-101 | the table `save_aggregated_csv` writes; has no contract of its own (`Aggregate.SaveAggregated`, `Aggregate.SavedKeys` and `Aggregate.SavedCell` state when it exists and what it holds) |
| Aggregate.TableAt | mergesort/plottingMergesortBar.py:92-96 | frame `i` has the key and algorithm `i`'s two columns, one row per group plus the offset |
| Aggregate.CellsMeaning | mergesort/plottingMergesortBar.py:92-96 | the combined cells are the truncated maxima and means of the groups |
| Aggregate.TablesHaveColumns | mergesort/plottingMergesortBar.py:92-96 | every combined frame has columns |
| Aggregate.SavedKeys | mergesort/plottingMergesortBar.py:93-101 | the saved table has a row for every group of every algorithm, its key plus the offset |
| Aggregate.ColumnsExclusive | mergesort/plottingMergesortBar.py:94-95 | with distinct algorithms, an algorithm's columns belong to its frame alone |
| Aggregate.PairColumns | mergesort/plottingMergesortBar.py:94-95 | a row of one algorithm has no column of another |
| Aggregate.PairSurvives | mergesort/plottingMergesortBar.py:101 | a row of a frame whose two columns no other frame has survives the merge |
| Aggregate.SavedCell | mergesort/plottingMergesortBar.py:84-101 | with distinct algorithms, the saved row of a group holds that algorithm's truncated maximum and mean |
| Aggregate.AggregatedRow | mergesort/plottingMergesortBar.py:87-101 | the merged row of a group holds the algorithm's truncated maximum and mean |
| Aggregate.SavedCellsFrom | mergesort/plottingMergesortBar.py:84-101 | every cell of the saved table is the maximum or mean of some algorithm's group |
| Aggregate.AggregatedCellOwned | mergesort/plottingMergesortBar.py:87-101 | every merged cell is owned by some algorithm |
| Aggregate.TableOwns | mergesort/plottingMergesortBar.py:92-96 | a cell of frame `i` is algorithm `i`'s maximum or mean |
| Aggregate.ColumnPairs | mergesort/plottingMergesortBar.py:94-95 | two column names per algorithm, the maximum then the mean |
| Aggregate.DataColumnsArePairs | mergesort/plottingMergesortBar.py:94-95 | the frames' data columns are the algorithms' column pairs in order |
| Aggregate.SavedColumns | mergesort/plottingMergesortBar.py:84-101 | the saved table's columns are the key and then the maximum and mean of every algorithm, in order |
| Aggregate.AggregatedColumnsOf | mergesort/plottingMergesortBar.py:87-101 | the merged columns are the key and every algorithm's pair |
| Aggregate.LaterColumns | mergesort/plottingMergesortBar.py:100-101 | the data columns after the first frame with a row are the later algorithms' pairs |
| Aggregate.SavedMeanAtMostMax | mergesort/plottingMergesortBar.py:84-101 | where every algorithm's mean is at most its maximum, the saved mean is at most the saved maximum |
| Plotting.AggregatedFileInjective | mergesort/plottingMergesortBar.py:104 | different metrics are saved to different files |
| Plotting.AggregatedFileApart | mergesort/plottingMergesortBar.py:104-119 | no metric other than `execution_time` is saved over the execution-time table |
| Plotting.ExecutionFileApart | mergesort/plottingMergesortBar.py:104-119 | no metric file is the execution-time file |
| Plotting.ExecutionColumns | mergesort/plottingMergesortBar.py:112-117 | the execution-time table's columns are the key, then `<name>_execution_time` for each time column in order |
| Plotting.ExecutionColumnsOfAlgorithms | mergesort/plottingMergesortBar.py:113-117 | the four time columns are renamed to `virtual_execution_time`, `platform_execution_time`, `coroutines_execution_time` and `goroutines_execution_time` |
| Plotting.Shift | mergesort/plottingMergesortBar.py:113 | shifting keeps NaN and an offset of zero changes nothing |
| Plotting.TimeColumns | mergesort/plottingMergesortBar.py:72-77 | the time log gives the key and one column per algorithm, all of the same length |
| Plotting.ExecutionTable | mergesort/plottingMergesortBar.py:112-119 | the execution-time table has the key and one `<name>_execution_time` column per algorithm; each row is the shifted key followed by that row's times |
| Plotting.ExecutionRows | mergesort/plottingMergesortBar.py:112-119 | row `i` of the execution-time table is row `i + 1` of the time log, coerced, with its key shifted |
| Plotting.MetricFiles | mergesort/plottingMergesortBar.py:107-109 | the files of the first `n` metrics |
| Plotting.WrittenOneMore | mergesort/plottingMergesortBar.py:107-109 | saving one more table keeps the earlier ones |
| Plotting.MetricFilesGrow | mergesort/plottingMergesortBar.py:107-109 | the files of the first `n` metrics are among those of the first `m` when `n <= m` |
| Plotting.SavedMetricIs | mergesort/plottingMergesortBar.py:107-109 | the save of metric `j` is `save_aggregated_csv` on the dictionaries the loop filled, which hold that metric for every algorithm |
| Plotting.StopsAt | mergesort/plottingMergesortBar.py:107-109 | a save that raises after the earlier tables were written leaves the saves stopped at that metric, not all succeeded |
| Plotting.SavedFromWritten | mergesort/plottingMergesortBar.py:107-109 | the tables written in order are the saved tables of the metrics |
| Plotting.SaveMetrics | mergesort/plottingMergesortBar.py:107-109 | the saves succeed exactly when every metric's table can be saved; then each file holds its table; otherwise they stop at the first failing metric with the tables before it saved |
| Plotting.WriteAggregates | mergesort/plottingMergesortBar.py:49-119 | a failed read or reduction ends the script with its error and nothing written; so does a failed time log; otherwise the metric tables are saved in order, and the execution-time table is written exactly when they all succeed |
| Plotting.AggregatedCellOfLog | mergesort/plottingMergesortBar.py:49-104 | each saved cell is the truncated maximum or mean of the group in the algorithm's log, coerced and rescaled, under its shifted key |
| Plotting.LogGroups | mergesort/plottingMergesortBar.py:49-69 | the dictionaries hold the grouped maxima and means of each log's coerced, rescaled columns |
| Plotting.AggregatedMeanAtMostMax | mergesort/plottingMergesortBar.py:56-104 | in every saved table a group's mean is at most its maximum |
| MergesortPlot.Metrics | mergesort/plottingMergesortBar.py:51-66 | the three metrics are unscaled and have distinct names |
| MergesortPlot.AlgorithmsDistinct | mergesort/plottingMergesortBar.py:27 | the four algorithm names are different |
| MergesortPlot.MetricFileNames | mergesort/plottingMergesortBar.py:104-109 | the script saves `cpu_usage_aggregated.csv`, `memory_usage_aggregated.csv` and `num_threads_aggregated.csv` |
| MergesortPlot.ExecutionColumnNames | mergesort/plottingMergesortBar.py:112-118 | the execution-time table's columns are `max_depth` and the four `<name>_execution_time` columns |
| MergesortPlot.WriteFiles | mergesort/plottingMergesortBar.py:49-119 | a run to the end saves exactly the three metric files and the execution-time table with depths shifted by one; no metric file is the execution-time file |
| BankPlot.Metrics | bank/plottingBankBar.py:41-60 | the four metrics, CPU divided by 4 and database CPU by 3, have distinct names |
| BankPlot.AlgorithmsDistinct | bank/plottingBankBar.py:16 | the four algorithm names are different |
| BankPlot.MetricFileNames | bank/plottingBankBar.py:99-105 | the script saves the four files of CPU, memory, threads and database CPU |
| BankPlot.ExecutionColumnNames | bank/plottingBankBar.py:110-116 | the execution-time table's columns are `delay` and the four `<name>_execution_time` columns, and its delays are as read |
| BankPlot.MonitorLogLacksDelay | bank/plottingBankBar.py:41 | a log that starts with the bank monitor's header (bank/monitoringBank.py:188) reduces to `KeyError: delay` |
| BankPlot.MonitorLogsStopScript | bank/plottingBankBar.py:37-41 | when the first algorithm's log is one the bank monitor wrote, reading the logs ends with `KeyError: delay` |
| BankPlot.WriteFiles | bank/plottingBankBar.py:37-117 | a run to the end saves exactly the four metric files and the execution-time table with its delays unchanged; no metric file is the execution-time file; a failing read of the logs ends the script with its error and nothing saved |

## Left out

- Processes, clocks, sleeps and the network are not modelled. Launching a program becomes its command line. Its output, the psutil and docker answers, and the clock readings are parameters.
- The console output of every `print` is not modelled, including the message at bank/plottingBankBar.py:107. The one exception is the echo of the bank readiness gate.
- `run_bank_data_generator` is not modelled: it runs an external jar whose output the harness ignores.
- YAML parsing and dumping are not modelled. The template is a YAML tree, and writing the result is storing that tree.
- Integer widths are not modelled: Python integers are unbounded, like Dafny's.
- Floating point: readings are modelled as reals. NaN is `None`, and `round(x, 1)` is not modelled.
- Only decimal notation is parsed by `float`; exponents, `inf` and `nan` spellings are not.
- Text.Strip, Text.TrimStart, Text.TrimEnd: only ASCII whitespace is stripped; Python's `str.strip` also strips the other Unicode whitespace. The tool output the harness strips is ASCII.
- Text.Upper: only the ASCII letters are upper-cased; Python's `str.upper` maps every Unicode letter, and may lengthen the text (`ß` becomes `SS`).
- Text.ParseInt, Text.ParseDecimal: the `_` digit separators and the non-ASCII digits that Python's `int` and `float` accept are rejected.
- The bar-chart scripts' plots (matplotlib) are not modelled, and neither are `os.makedirs` and the directory paths.
- The scripts' tables are returned as values rather than written as CSV text.
- The tables' row order, and pandas' dtype changes after an outer merge, are not modelled. A merged table is keyed by the group value, and the same columns are kept.
- A merge that would create duplicate column names (pandas' `_x`/`_y` suffixes) is not modelled. With distinct algorithm names it cannot happen.
- Aggregate.SaveAggregated: `round_to_zero` raising on the first NaN group is modelled as the whole save failing with that same `ValueError` when any algorithm has a NaN group. Nothing is written before the loop ends, so the observable result is the same.
- The metrics the scripts leave unscaled are given divisor 1.0.
- The three or four `save_aggregated_csv` calls are modelled as a loop over the metric list, in their order.
- Only the first failure of a script is modelled: a raised exception ends the script, and later statements do not run.
- The bank monitor's commented-out algorithm list (bank/monitoringBank.py:9) is not modelled. The sweep measures `platform` only, as the code does.
- In monitoring.py, `time.sleep(0.2 - measurement_time)` raises `ValueError` when a poll takes longer than 0.2 seconds. It is modelled as one of the reasons the sampler ends, with the poll's duration as a parameter.
- plotting.py and the other context scripts are not part of this model.
- The bank monitor's log columns do not match the columns the bank bar-chart script reads (`delay`, `postgres_cpu`), so the two scripts do not connect as written. The model keeps each script as it is and does not guess which columns were meant.
