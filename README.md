# pithya-core launcher and result tables, modelled in Dafny

This project models the sequential core of pithya-core, a Kotlin tool that runs
parameter-estimation experiments for ODE models with a CTL model checker. It covers:

- **MPJ cluster record** (`createMPJConfigFile`). The launcher writes one file for a
  cluster launch. It holds the host count, the protocol-switch limit `131072` and one
  `host@port@port+1@rank$0` line per host, with ports taken two at a time from a
  `low-high` range. The loop is modelled as a method proved against a record function.
  The model also includes a reader of the record, and a second copy of the loop with
  32-bit `Int` wrap-around.
- **Task dispatch** (`executeTask`). The launcher reads a task's type and loads its
  configuration. From the communicator variant it builds the argument vector and the
  environment of each worker process. It then folds the workers' exit codes into one
  boolean.
- **Small utilities**: log-level names (`toLogLevel`), `trimExtension`, `toMillis`, the
  location of the `java` executable, and the shell payload sent to a remote worker over
  `ssh`.
- **Task configuration loading** (`ctl/TaskConfiguration.kt`). A YAML mapping is read
  through accessors with defaults, then turned into a job queue, communicator,
  partitioning, parser, model, checker and colours configuration. Each loader has its
  defaults and errors. An encoder is proved to load back.
- **Result interning tables** of the JSON printers in `exe/Z3Main.kt`, `exe/Main.kt` and
  `exe/RectMain.kt`. These turn formula results into duplicate-free `states` and `params`
  lists plus index pairs. Both lookup styles are modelled as loops: `HashMap.computeIfAbsent`
  and `ArrayList.indexOf`. Each is proved against one specification, `Tabulate`.
- **`SMT.toR`**, the translation of SMT-LIB terms to R expressions. The `isRectangular`
  test of `exe/Main.kt` is modelled too.
- **Experiment setup** (`Experiment.kt`): the first free `base`, `base-1`, … directory
  name, `getComputerName`, and which description files `setupExperiment` writes.

Modules, one per file:

| module | file |
|---|---|
| `Base` | `base.dfy` |
| `Strings` | `strings.dfy` |
| `Utility` | `utility.dfy` |
| `TaskConfiguration` | `config.dfy` |
| `Task` | `task.dfy` |
| `ResultTables` | `results.dfy` |
| `Z3Main` | `z3main.dfy` |
| `ExeMain` | `exemain.dfy` |
| `RectMain` | `rectmain.dfy` |
| `Experiment` | `experiment.dfy` |

Where the code does something the project documentation does not, the model follows the
code, except at the top of the 32-bit port range, where the dispatcher uses the corrected
record (see "## Left out" and "## Findings"):

- **Port range.** The bound check runs after each host's line, so `n` hosts need
  `low + 2n <= high`, and the last port of the range is never handed out.
- **Empty host list.** An empty host list is never checked and always succeeds.
- **Parser settings.** The parser's `logLevel` and `optimize` are read from a task's
  top-level mapping, not from its `ctlParser` section.
- **Missing constants.** Some keys are absent from `Constants.kt`. They are used by
  their evident names: `mergeQueue`, `hosts`, `portRange` and `selfLoops`.

## Model

| member | source | states |
|---|---|---|
| Base.Wrap32 | src/main/java/com/github/sybila/biodivine/Task.kt:125-128 | JVM `Int` arithmetic. The result is a 32-bit value congruent to the input modulo 2^32, and a 32-bit input is unchanged. |
| Strings.Split | src/main/java/com/github/sybila/biodivine/Task.kt:118 | `split("-")`. There is one more part than separators, no part holds the separator, and joining the parts with it gives the input back. |
| Strings.SplitAtFirst | src/main/java/com/github/sybila/biodivine/Task.kt:118 | Text before the first separator is the first part, and the rest splits on its own. |
| Strings.ParseInt32 | src/main/java/com/github/sybila/biodivine/Task.kt:120-121 | `toInt()`. A parsed value is a 32-bit `Int` and comes from non-empty text. |
| Strings.ParseInt32Accepts | src/main/java/com/github/sybila/biodivine/Task.kt:120-121 | What `toInt()` accepts: one or more digits with an optional leading `-` or `+`, with a value in the `Int` range. Any other character, a bare sign and an out-of-range value are refused. |
| Strings.IntToStringRoundTrip | src/main/java/com/github/sybila/biodivine/Task.kt:120-127 | `toInt()` reads back every `Int` printed by `toString()`. |
| Strings.IntToStringInjective | src/main/java/com/github/sybila/biodivine/Task.kt:127 | Two different `Int`s never print the same. |
| Strings.ParseInt32Unsigned | src/main/java/com/github/sybila/biodivine/Task.kt:118-121 | Text without a minus sign parses to a non-negative number, so neither port bound can be negative. |
| Strings.Lower | src/main/java/com/github/sybila/biodivine/Task.kt:36 | Root-locale `toLowerCase()` on ASCII text keeps the length. No capital `A`-`Z` remains: each becomes its small letter, and every other character is kept. |
| Utility.ToLogLevel | src/main/java/com/github/sybila/biodivine/Utility.kt:22-34 | Exactly the nine names off, error, severe, warning, info, fine, finer, finest and all are accepted, never as CONFIG. Any other string is an error naming it. |
| Utility.LevelRoundTrip | src/main/java/com/github/sybila/biodivine/Utility.kt:22-34 | A worker parses the lower-cased level name it is sent back to the same level, for every level but CONFIG. CONFIG is rejected. |
| Utility.ParsedLevelRoundTrip | src/main/java/com/github/sybila/biodivine/Utility.kt:22-34 | Every level `toLogLevel` produces survives the trip to a worker. |
| Utility.AsWrittenRootLocale | src/main/java/com/github/sybila/biodivine/Task.kt:36 | In the root locale the dispatcher's lowering equals the model's. |
| Utility.TurkicLocaleBreaksInfo | src/main/java/com/github/sybila/biodivine/Task.kt:36 | In a Turkic default locale the worker cannot parse the level INFO it is sent. |
| Utility.LastIndexOf | src/main/java/com/github/sybila/biodivine/Utility.kt:19 | `lastIndexOf`. The index holds the character and nothing after it does. It is -1 iff the character is absent. |
| Utility.TrimExtension | src/main/java/com/github/sybila/biodivine/Utility.kt:18-20 | The result is the prefix before the last '.', with nothing dropped but the extension. It fails iff there is no '.'. |
| Utility.ToMillis | src/main/java/com/github/sybila/biodivine/Utility.kt:91 | Division by 1,000,000 truncating toward zero, stated as bounds for both signs. |
| Utility.JavaLocation | src/main/java/com/github/sybila/biodivine/Utility.kt:36-41 | `<java.home>/bin/java`, or `bin\java.exe` when the OS name starts with "Win". |
| Utility.WorkerLevelArgAsWritten | src/main/java/com/github/sybila/biodivine/Task.kt:36 | The level name as the dispatcher lowers it in the default locale: same length, and no capital letter remains. |
| Utility.RemoteCommand | src/main/java/com/github/sybila/biodivine/Utility.kt:166-168 | The `ssh` payload starts with `cd <user.dir>; ` and ends with the quoted arguments. |
| Utility.UnquoteQuoteNonEmpty | src/main/java/com/github/sybila/biodivine/Utility.kt:168 | A remote shell splitting the quoted, space-joined arguments recovers them, in order. This holds when no argument holds a double quote. |
| Utility.UnquoteQuoteArgs | src/main/java/com/github/sybila/biodivine/Utility.kt:168 | The same, including the empty argument vector. |
| Utility.QuotesAreNotEscaped | src/main/java/com/github/sybila/biodivine/Utility.kt:168 | No escaping: one argument `a" "b` produces the same payload as the two arguments `a` and `b`. |
| Utility.RemoteCommandShape | src/main/java/com/github/sybila/biodivine/Utility.kt:166-168 | The payload starts with `cd <user.dir>; `, then the export segments, then the quoted arguments, which read back as the argument vector. |
| TaskConfiguration.GetString | src/main/java/com/github/sybila/biodivine/YamlHelper.kt:22-24 | An absent key gives none. A present string is returned as it is. Any other value is a type error, and an error only then. |
| TaskConfiguration.GetStringOr | src/main/java/com/github/sybila/biodivine/YamlHelper.kt:14-16 | An absent key gives the default. A present value must be a string, else it is an error. |
| TaskConfiguration.GetInt | src/main/java/com/github/sybila/biodivine/YamlHelper.kt:26-28 | An absent key gives the default. A present value must be a 32-bit integer. |
| TaskConfiguration.GetBool | src/main/java/com/github/sybila/biodivine/YamlHelper.kt:30-32 | An absent key gives the default. A present value must be a boolean. |
| TaskConfiguration.GetMap | src/main/java/com/github/sybila/biodivine/YamlHelper.kt:34-36 | An absent key gives the empty mapping. A present value must be a mapping. |
| TaskConfiguration.GetFile | src/main/java/com/github/sybila/biodivine/YamlHelper.kt:38-40 | A file is read as a string path, with the same absence and type errors. |
| TaskConfiguration.Render | src/main/java/com/github/sybila/biodivine/YamlHelper.kt:49 | `toString()` of a list item. A string renders as itself, and a 32-bit integer renders as text that `toInt()` reads back. The result is missing exactly for a mapping or a list holding one. |
| TaskConfiguration.GetStringList | src/main/java/com/github/sybila/biodivine/YamlHelper.kt:47-50 | An absent key gives the empty list. The call succeeds iff the value is absent or is a list whose every item renders. Then there is one rendered string per item, in order. A non-list value is a type error. |
| TaskConfiguration.GetLogLevel | src/main/java/com/github/sybila/biodivine/YamlHelper.kt:52-55 | An absent key gives the default. A present string gives exactly what `toLogLevel` gives for it, including the unknown-name error. A non-string is a type error. |
| TaskConfiguration.LoadPartitioning | src/main/java/com/github/sybila/biodivine/ctl/TaskConfiguration.kt:35-53 | Absent gives Uniform. A bare `block`, and a mapping of type `block` without `blockSize`, give block size 100. An unknown bare value, or a mapping with an unknown or missing `type`, is an error. |
| TaskConfiguration.LoadJobQueue | src/main/java/com/github/sybila/biodivine/ctl/TaskConfiguration.kt:55-69 | Absent, or a bare `blockingQueue`, gives a blocking queue at INFO, and a bare `mergeQueue` a merge queue at INFO. A mapping of either type without `logLevel` gives that queue at INFO. An unknown bare value, or a mapping with an unknown or missing `type`, is an error. |
| TaskConfiguration.LoadCluster | src/main/java/com/github/sybila/biodivine/ctl/TaskConfiguration.kt:165-170 | A cluster configuration carries the `portRange` text, which only the launcher parses. Absent `hosts` is the empty list. A missing `portRange` is an error. |
| TaskConfiguration.LoadCommunicator | src/main/java/com/github/sybila/biodivine/ctl/TaskConfiguration.kt:71-89 | Absent gives no communicator, and a bare `mpjCluster` is the missing-host-list error. A bare `sharedMemory` gives one worker, and a bare `mpjLocal` one worker with no home at INFO. A mapping of either type without `workers` gives one worker. A cluster result only comes from a mapping of type `mpjCluster`. Unknown values and types are errors. |
| TaskConfiguration.LoadParser | src/main/java/com/github/sybila/biodivine/ctl/TaskConfiguration.kt:92-104 | Each key has its own default, whatever the others hold. A missing `ctlParser` gives the until normal form, a missing `optimize` gives optimise on, and a missing `logLevel` gives INFO. `none` means no normal form, and any other normal form is an error. |
| TaskConfiguration.LoadOde | src/main/java/com/github/sybila/biodivine/ctl/TaskConfiguration.kt:225-230 | `file` is required. Each flag has its own default, whatever the others hold: `fastApproximation` and `cutToRange` default to false and `selfLoops` to true. |
| TaskConfiguration.LoadModel | src/main/java/com/github/sybila/biodivine/ctl/TaskConfiguration.kt:106-111 | The type defaults to ODE, any other type is an error, and an ODE section is loaded as such. |
| TaskConfiguration.LoadChecker | src/main/java/com/github/sybila/biodivine/ctl/TaskConfiguration.kt:113-115 | An absent section gives INFO, and a non-mapping is a type error. In a mapping, a missing `logLevel` gives INFO, and a string gives what `toLogLevel` gives, including the unknown-name error. |
| TaskConfiguration.LoadColors | src/main/java/com/github/sybila/biodivine/ctl/TaskConfiguration.kt:117-131 | Absent, a mapping without `type`, and the type `rectangular` give rectangular colours. A bare `smt` and the type `smt` give SMT colours. Any other bare value or `type` is an error. |
| TaskConfiguration.LoadTaskConfig | src/main/java/com/github/sybila/biodivine/ctl/TaskConfiguration.kt:22-32 | `maxMemory` defaults to 1024 and `timeout` to -1, both 32-bit. The communicator and model are those of their loaders. |
| TaskConfiguration.MinimalTaskConfig | src/main/java/com/github/sybila/biodivine/ctl/TaskConfiguration.kt:22-32 | A configuration with only the model file loads with every default. The empty configuration fails for want of a model file. |
| TaskConfiguration.LevelValueRoundTrip | src/main/java/com/github/sybila/biodivine/YamlHelper.kt:52-55 | A level written as its lower-case name reads back, for all levels but CONFIG. |
| TaskConfiguration.HostsRoundTrip | src/main/java/com/github/sybila/biodivine/ctl/TaskConfiguration.kt:168 | A host list written as a YAML list reads back unchanged. |
| TaskConfiguration.CommunicatorRoundTrip | src/main/java/com/github/sybila/biodivine/ctl/TaskConfiguration.kt:71-89 | Every encoded communicator loads back as itself. |
| TaskConfiguration.LocalRoundTrip | src/main/java/com/github/sybila/biodivine/ctl/TaskConfiguration.kt:152-156 | An encoded local MPJ communicator loads back as itself. |
| TaskConfiguration.ClusterRoundTrip | src/main/java/com/github/sybila/biodivine/ctl/TaskConfiguration.kt:165-170 | An encoded cluster communicator loads back as itself. |
| TaskConfiguration.JobQueueRoundTrip | src/main/java/com/github/sybila/biodivine/ctl/TaskConfiguration.kt:55-69 | Every encoded job queue loads back as itself. |
| TaskConfiguration.PartitioningRoundTrip | src/main/java/com/github/sybila/biodivine/ctl/TaskConfiguration.kt:35-53 | Every encoded partitioning loads back as itself. |
| TaskConfiguration.ParserRoundTrip | src/main/java/com/github/sybila/biodivine/ctl/TaskConfiguration.kt:92-104 | The parser settings of an encoded configuration load back. |
| TaskConfiguration.ModelRoundTrip | src/main/java/com/github/sybila/biodivine/ctl/TaskConfiguration.kt:106-111 | Every encoded ODE model section loads back as itself. |
| TaskConfiguration.CheckerRoundTrip | src/main/java/com/github/sybila/biodivine/ctl/TaskConfiguration.kt:113-115 | A checker section loads back as itself. |
| TaskConfiguration.LoadTaskConfigOfSections | src/main/java/com/github/sybila/biodivine/ctl/TaskConfiguration.kt:22-32 | A task configuration is the tuple of its sections' loaders. |
| TaskConfiguration.TaskConfigRoundTrip | src/main/java/com/github/sybila/biodivine/ctl/TaskConfiguration.kt:22-32 | Every configuration without a CONFIG level and with 32-bit numbers loads back from its encoding. |
| Task.ParsePortRange | src/main/java/com/github/sybila/biodivine/Task.kt:118-121 | It is an error unless the range splits into exactly two parts that both parse. A parsed pair is non-negative and 32-bit. |
| Task.PortRangeRoundTrip | src/main/java/com/github/sybila/biodivine/Task.kt:118-121 | `low-high` written out parses back to `(low, high)`. |
| Task.Allocate | src/main/java/com/github/sybila/biodivine/Task.kt:118-130 | Range errors pass through. The table exists iff `n == 0` or `low + 2n <= high`, and otherwise the error is running out of ports. |
| Task.AllocationSound | src/main/java/com/github/sybila/biodivine/Task.kt:125-128 | Rank i is host i. Its two ports are consecutive and below `high`, and no port is handed out twice. |
| Task.HostLinesAt | src/main/java/com/github/sybila/biodivine/Task.kt:126-127 | Line i of the rank lines describes rank i. |
| Task.HostLinesAppend | src/main/java/com/github/sybila/biodivine/Task.kt:126-127 | The lines of two tables in turn are the lines of their concatenation. |
| Task.MpjConfig | src/main/java/com/github/sybila/biodivine/Task.kt:116-133 | The record exists iff the allocation does, with the same error. It has `n + 2` lines, starting with the host count and `131072`. |
| Task.HostLine | src/main/java/com/github/sybila/biodivine/Task.kt:127 | A rank's line starts with its host and '@', and ends with the literal `$0`. |
| Task.MpjConfigOfBounds | src/main/java/com/github/sybila/biodivine/Task.kt:118-130 | For a parsed range the record is the header plus rank lines, or running out of ports. |
| Task.HostLinesStep | src/main/java/com/github/sybila/biodivine/Task.kt:126-127 | Writing rank k's line after ranks 0..k-1 gives the lines of ranks 0..k. |
| Task.CreateMpjConfigFile | src/main/java/com/github/sybila/biodivine/Task.kt:116-133 | The method's result is the record function's result. |
| Task.WriteRanks | src/main/java/com/github/sybila/biodivine/Task.kt:122-131 | The loop with the moving port cursor writes exactly the record, or stops with out-of-ports iff the hosts do not fit. |
| Task.HostLineParts | src/main/java/com/github/sybila/biodivine/Task.kt:127 | A host line splits at '@' into host, port, port and rank followed by the literal `$0`. |
| Task.HostLineRoundTrip | src/main/java/com/github/sybila/biodivine/Task.kt:127 | A reader recovers the rank from its line when the host has no '@'. |
| Task.ReadEachLine | src/main/java/com/github/sybila/biodivine/Task.kt:126-130 | Lines that each read back as one rank read back, together, as those ranks in order. |
| Task.HostLinesRoundTrip | src/main/java/com/github/sybila/biodivine/Task.kt:126-130 | All rank lines read back as the rank table. |
| Task.MpjConfigRoundTrip | src/main/java/com/github/sybila/biodivine/Task.kt:122-131 | A worker reading the record finds the count, the limit and exactly the allocated rank table. |
| Task.AllocateOfRange | src/main/java/com/github/sybila/biodivine/Task.kt:118-130 | For a written-out range, allocation succeeds iff the hosts fit. |
| Task.ThreeHosts | src/main/java/com/github/sybila/biodivine/Task.kt:125-130 | Three hosts get ranks 0 to 2 and ports `low..low+5` when `high >= low + 6`, and fail otherwise. |
| Task.WalkAsWritten | src/main/java/com/github/sybila/biodivine/Task.kt:125-129 | The loop with 32-bit `Int` sums. A success has one line per remaining host, and the only failure is running out of ports. |
| Task.MpjConfigAsWritten | src/main/java/com/github/sybila/biodivine/Task.kt:116-133 | The file as written. A range error is passed on. A success has the host count and `131072` as its first two lines, then one line per host. |
| Task.WalkStep | src/main/java/com/github/sybila/biodivine/Task.kt:125-129 | Without wrap-around, one step of the loop as written is one line plus the rest, or the out-of-ports stop. |
| Task.HostLinesCons | src/main/java/com/github/sybila/biodivine/Task.kt:126-127 | The lines from rank k on are rank k's line followed by those from k+1 on. |
| Task.WalkStops | src/main/java/com/github/sybila/biodivine/Task.kt:129 | The loop as written stops exactly where the model's check fails. |
| Task.WalkContinues | src/main/java/com/github/sybila/biodivine/Task.kt:126-129 | A step of the loop as written extends the model's lines. |
| Task.WalkAgrees | src/main/java/com/github/sybila/biodivine/Task.kt:125-130 | Below the top of `Int`, the loop as written from any rank on equals the model. |
| Task.AsWrittenAgrees | src/main/java/com/github/sybila/biodivine/Task.kt:116-133 | With both bounds at most `Int.MAX_VALUE - 2`, the file as written equals the model's record. |
| Task.WalkPastTop | src/main/java/com/github/sybila/biodivine/Task.kt:127-129 | At `Int.MAX_VALUE` the cursor wraps negative and passes the bound check. |
| Task.AsWrittenOfRange | src/main/java/com/github/sybila/biodivine/Task.kt:122-131 | The file as written is the header followed by the loop's lines. |
| Task.OverflowAccepted | src/main/java/com/github/sybila/biodivine/Task.kt:125-129 | As written, one host with the range `2147483647-2147483647` is accepted, with second port -2147483648. |
| Task.NearTopAccepted | src/main/java/com/github/sybila/biodivine/Task.kt:125-129 | One host on `2147483646-2147483647` is accepted as written, with both ports of the range. The corrected record refuses it with out-of-ports. |
| Task.TopRangeRefused | src/main/java/com/github/sybila/biodivine/Task.kt:125-129 | The model refuses that host and range with out-of-ports. |
| Task.TopRangeParses | src/main/java/com/github/sybila/biodivine/Task.kt:118-121 | Such a range exists as text. |
| Task.TaskRoot | src/main/java/com/github/sybila/biodivine/Task.kt:11 | An unnamed task runs in `root`. A named one runs in `root/name`. |
| Task.AbsolutePath | src/main/java/com/github/sybila/biodivine/Task.kt:34-38 | `absolutePath`: an absolute path is kept. A relative one is placed under `user.dir`, so with an absolute `user.dir` the result is absolute, and it always ends with the given path. |
| Task.MpjVars | src/main/java/com/github/sybila/biodivine/Task.kt:41-42 | Two variables: `MPJ_HOME` is the MPJ home, and `PATH` puts the MPJ home's `bin` directory first. |
| Task.RankLaunch | src/main/java/com/github/sybila/biodivine/Task.kt:28-43 | Rank i's process: the heap flag in slot 3, the MPJ device main class `MPJCommTaskKt` in slot 4, then its rank, the record's path and `niodev` in slots 5 to 7, then the worker arguments. Its environment is the MPJ variables. |
| Task.MpjHome | src/main/java/com/github/sybila/biodivine/Task.kt:20-23 | With no configured home and no `MPJ_HOME` it fails. A returned home is a directory. |
| Task.PlanTask | src/main/java/com/github/sybila/biodivine/Task.kt:9-17 | A plan exists only for a task of type `CTLParameterEstimation` whose configuration loads. A cluster plan has one launch per configured host. |
| Task.PlanLaunch | src/main/java/com/github/sybila/biodivine/Task.kt:17-109 | A cluster plan comes only from a cluster communicator, with its hosts and one launch each. |
| Task.RankLaunches | src/main/java/com/github/sybila/biodivine/Task.kt:26-45 | One process per rank, in rank order. Process i is rank i's. |
| Task.LaunchOfVariant | src/main/java/com/github/sybila/biodivine/Task.kt:17-109 | Which main class each variant starts: `EmptyCommTaskKt`, `SharedMemoryTaskKt`, or `MPJCommTaskKt` for both MPJ variants. The local MPJ launch starts with `-jar <home>/lib/starter.jar -np <workers>`. Only the MPJ launches carry `MPJ_HOME` and `PATH`. |
| Task.LocalMpjLaunch | src/main/java/com/github/sybila/biodivine/Task.kt:60-74 | The local MPJ process: `-jar <home>/lib/starter.jar -np <workers>`, the heap flag in slot 7, `MPJCommTaskKt` in slot 8, then the worker arguments. Its environment is the MPJ variables. |
| Task.RanksStartMpj | src/main/java/com/github/sybila/biodivine/Task.kt:26-45 | Every rank's process starts `MPJCommTaskKt` with the MPJ variables and ends with the worker arguments. |
| Task.LocalLaunch | src/main/java/com/github/sybila/biodivine/Task.kt:60-74 | The local MPJ launch: the starter prefix, then `MPJCommTaskKt`, with the MPJ variables. |
| Task.ClusterLaunches | src/main/java/com/github/sybila/biodivine/Task.kt:26-45 | Every rank starts `MPJCommTaskKt` with the MPJ variables. |
| Task.PlanOfConfig | src/main/java/com/github/sybila/biodivine/Task.kt:11-17 | A successful plan is the launch plan of the loaded configuration with the worker arguments. |
| Task.AwaitRanks | src/main/java/com/github/sybila/biodivine/Task.kt:25-51 | The fold over the ranks succeeds iff every rank returned 0. |
| Task.ExecuteTask | src/main/java/com/github/sybila/biodivine/Task.kt:9-114 | A planning error is the result. A single process succeeds iff its exit code is 0. A cluster succeeds iff every rank's code is 0. |
| Task.UnknownTaskType | src/main/java/com/github/sybila/biodivine/Task.kt:112 | Any type other than `CTLParameterEstimation` is an error naming it. |
| Task.PortRangeCheckedFirst | src/main/java/com/github/sybila/biodivine/Task.kt:19-23 | In the cluster branch a bad port range is reported even when the MPJ home is also bad. |
| Task.RecordBeforeHome | src/main/java/com/github/sybila/biodivine/Task.kt:19-20 | In the cluster branch a failed record is the launch error, whatever the MPJ home. |
| Task.LaunchesEndWithWorkerArgs | src/main/java/com/github/sybila/biodivine/Task.kt:36-39 | Every launched process ends its arguments with the worker arguments. |
| Task.WorkerReadsLevel | src/main/java/com/github/sybila/biodivine/Task.kt:36 | The worker parses the console level it is sent back, for all levels but CONFIG. |
| Task.HeapFlagOfPlan | src/main/java/com/github/sybila/biodivine/Task.kt:31-99 | The heap flag is `-Xmx<maxMemory*workers>M`, a 32-bit product, for shared memory. It is `-Xmx<maxMemory>M` for the other three variants. |
| Task.SharedHeapFlag | src/main/java/com/github/sybila/biodivine/Task.kt:84 | With shared memory the heap flag is the 32-bit product `maxMemory*workers`. |
| Task.ClusterRankArgs | src/main/java/com/github/sybila/biodivine/Task.kt:28-39 | Rank i's arguments carry its rank, the record's absolute path and `niodev`, and the rank parses back. |
| Task.SshArgv | src/main/java/com/github/sybila/biodivine/Utility.kt:170 | The command line is `ssh`, the host and one payload, which starts by changing to `user.dir`. |
| Task.RemoteRankCommand | src/main/java/com/github/sybila/biodivine/Task.kt:28-43 | Rank i's `ssh` payload changes directory first. Its arguments read back when none holds a double quote. |
| ResultTables.IndexOf | src/main/java/com/github/sybila/biodivine/exe/Main.kt:123 | `indexOf`: the first position holding the value, or -1 iff it is absent. |
| ResultTables.IndexOfUnique | src/main/java/com/github/sybila/biodivine/exe/Main.kt:123 | A position holding the value with no earlier occurrence is its index. |
| ResultTables.IndexOfPrefix | src/main/java/com/github/sybila/biodivine/exe/Main.kt:123-127 | Appending to the table does not move the index of a value already in it. |
| ResultTables.IndexOfNoDuplicates | src/main/java/com/github/sybila/biodivine/exe/Main.kt:123-127 | In a duplicate-free table every position is its value's index. |
| ResultTables.ExtendSnoc | src/main/java/com/github/sybila/biodivine/exe/Main.kt:123-127 | Seeing one more value appends it iff it is new. |
| ResultTables.ExtendPrefix | src/main/java/com/github/sybila/biodivine/exe/Main.kt:123-127 | Interning only appends, so the table so far is kept as a prefix. |
| ResultTables.ExtendMembers | src/main/java/com/github/sybila/biodivine/exe/Main.kt:123-127 | The table holds exactly the old values and the values seen. |
| ResultTables.ExtendNoDuplicates | src/main/java/com/github/sybila/biodivine/exe/Main.kt:123-127 | Interning keeps a table duplicate-free. |
| ResultTables.ExtendAppend | src/main/java/com/github/sybila/biodivine/exe/Main.kt:120-135 | Interning two runs one after the other is interning their concatenation, so the tables are shared across formulas. |
| ResultTables.DistinctFirstAppearance | src/main/java/com/github/sybila/biodivine/exe/Main.kt:122-132 | The table lists values in order of first appearance. |
| ResultTables.AllEntriesStep | src/main/java/com/github/sybila/biodivine/exe/Z3Main.kt:132-145 | The entries of formulas 0..i are those of 0..i-1 followed by formula i's. |
| ResultTables.Untabulate | src/main/java/com/github/sybila/biodivine/exe/Z3Main.kt:148-154 | Reading the pairs through the tables gives one result per formula. |
| ResultTables.TabulateNoDuplicates | src/main/java/com/github/sybila/biodivine/exe/Z3Main.kt:135-142 | The `states` and `params` lists have no duplicates. |
| ResultTables.TabulateValues | src/main/java/com/github/sybila/biodivine/exe/Z3Main.kt:132-142 | A state or parameter is in its list iff some entry carries it. |
| ResultTables.TabulatePointsBack | src/main/java/com/github/sybila/biodivine/exe/Z3Main.kt:132-145 | There is one result per formula, with its name and one pair per entry. Pair `[i,j]` satisfies `states[i] == s` and `params[j] == p`, and each index is the value's first occurrence. |
| ResultTables.TabulateRoundTrip | src/main/java/com/github/sybila/biodivine/exe/Z3Main.kt:132-154 | All indices are in range, and reading them back gives the input exactly. |
| ResultTables.TabulateSharesIndices | src/main/java/com/github/sybila/biodivine/exe/Z3Main.kt:135-143 | Two entries get the same state index iff they have the same state, and likewise for parameters. |
| ResultTables.TabulateDense | src/main/java/com/github/sybila/biodivine/exe/Z3Main.kt:135-138 | Every state index from 0 is used by some pair. |
| ResultTables.TabulateDenseParams | src/main/java/com/github/sybila/biodivine/exe/Z3Main.kt:139-142 | Every parameter index from 0 is used by some pair. |
| ResultTables.ComputeIfAbsent | src/main/java/com/github/sybila/biodivine/exe/Z3Main.kt:135-138 | `computeIfAbsent` with an append keeps the hash map equal to `indexOf` on the list. It interns the value and returns its first-occurrence index. |
| ResultTables.AddIfAbsent | src/main/java/com/github/sybila/biodivine/exe/Main.kt:123-127 | `indexOf`, then append if absent, interns the value and returns its first-occurrence index. |
| ResultTables.PairsStep | src/main/java/com/github/sybila/biodivine/exe/Z3Main.kt:134-144 | Interning two runs of entries in turn gives the tables and pairs of the whole run. |
| ResultTables.EntryStep | src/main/java/com/github/sybila/biodivine/exe/Z3Main.kt:134-144 | One more entry extends the tables and adds its own pair. |
| ResultTables.HashEntries | src/main/java/com/github/sybila/biodivine/exe/Z3Main.kt:134-144 | The inner loop with hash maps extends the tables by the entries' values, keeps the maps exact and emits the specified pairs. |
| ResultTables.ScanEntries | src/main/java/com/github/sybila/biodivine/exe/Main.kt:159-172 | The inner loop with `indexOf` does the same over the normalised entries. |
| ResultTables.RowsStep | src/main/java/com/github/sybila/biodivine/exe/Z3Main.kt:132-146 | The tables after formula i are those after formula i-1, extended by formula i's entries. |
| ResultTables.HashPartitions | src/main/java/com/github/sybila/biodivine/exe/RectMain.kt:79-91 | The loop over partitions interns their entries in list order, as one run. |
| Z3Main.PrintZ3Results | src/main/java/com/github/sybila/biodivine/exe/Z3Main.kt:126-146 | The nested loops build exactly the tables and results of `Tabulate`. |
| Z3Main.PrintSmtResult | src/main/java/com/github/sybila/biodivine/exe/Z3Main.kt:167-189 | The same over partition lists, which are flattened in order. |
| Z3Main.Separator | src/main/java/com/github/sybila/biodivine/exe/Z3Main.kt:221-226 | The join separators hold no parenthesis. |
| Z3Main.ToR | src/main/java/com/github/sybila/biodivine/exe/Z3Main.kt:211-235 | The only failures are an unsupported function name and a comparison or `not` missing an argument. |
| Z3Main.ToRAll | src/main/java/com/github/sybila/biodivine/exe/Z3Main.kt:221-226 | Arguments translate one to one, with the same failures. |
| Z3Main.ToRSucceeds | src/main/java/com/github/sybila/biodivine/exe/Z3Main.kt:211-235 | Translation succeeds iff every function name in the term is supported and has enough arguments. |
| Z3Main.ToRAllSucceeds | src/main/java/com/github/sybila/biodivine/exe/Z3Main.kt:221-226 | The arguments translate iff each one is translatable. |
| Z3Main.ToRAllPointwise | src/main/java/com/github/sybila/biodivine/exe/Z3Main.kt:221-226 | Translated argument k is the translation of argument k. |
| Z3Main.ExtraArgumentsIgnored | src/main/java/com/github/sybila/biodivine/exe/Z3Main.kt:227-231 | Comparisons read only two arguments and `not` reads only one. Further arguments change nothing. |
| Z3Main.JoinBalanced | src/main/java/com/github/sybila/biodivine/exe/Z3Main.kt:221-226 | Joining balanced parts with a parenthesis-free separator is balanced. |
| Z3Main.ToRBalanced | src/main/java/com/github/sybila/biodivine/exe/Z3Main.kt:211-235 | When every terminal is balanced, the R expression has as many '(' as ')'. |
| Z3Main.TerminalBalanced | src/main/java/com/github/sybila/biodivine/exe/Z3Main.kt:214-219 | `TRUE`, `FALSE`, `ip$name` and unchanged terminals keep a terminal balanced. |
| Z3Main.ChainBalanced | src/main/java/com/github/sybila/biodivine/exe/Z3Main.kt:221-226 | A parenthesised join of balanced parts is balanced. |
| Z3Main.NegationBalanced | src/main/java/com/github/sybila/biodivine/exe/Z3Main.kt:231 | `(!a)` is balanced when `a` is. |
| Z3Main.ComparisonBalanced | src/main/java/com/github/sybila/biodivine/exe/Z3Main.kt:227-230 | `(a op b)` is balanced when `a` and `b` are. |
| ExeMain.IsRectangular | src/main/java/com/github/sybila/biodivine/exe/Main.kt:53-55 | When the model is not rectangular, some variable's equation mentions two or more parameters. |
| ExeMain.EquationRectangular | src/main/java/com/github/sybila/biodivine/exe/Main.kt:54 | An equation has at most one distinct non-negative `paramIndex` iff all its non-negative indices are equal. |
| ExeMain.RectangularIff | src/main/java/com/github/sybila/biodivine/exe/Main.kt:53-55 | `isRectangular` holds iff in every variable's equation all non-negative parameter indices agree. |
| ExeMain.PrintSmtResults | src/main/java/com/github/sybila/biodivine/exe/Main.kt:153-174 | The loops build `Tabulate` of the normalised results, interning `normalize().purify()` values. |
| ExeMain.PrintRectResults | src/main/java/com/github/sybila/biodivine/exe/Main.kt:116-136 | The loops build exactly `Tabulate` of the results. |
| ExeMain.NormaliseIdempotent | src/main/java/com/github/sybila/biodivine/exe/Main.kt:165 | With an idempotent normalisation, normalising twice equals normalising once. |
| ExeMain.NormalFormsShareIndex | src/main/java/com/github/sybila/biodivine/exe/Main.kt:165-171 | Two entries get the same parameter index iff their normal forms are equal. |
| RectMain.PrintJsonRectResults | src/main/java/com/github/sybila/biodivine/exe/RectMain.kt:71-104 | The loops build `Tabulate` of the flattened partitions. `parameterValues` has one rendering per parameter, in the same order. |
| RectMain.ParameterValuesDistinctSets | src/main/java/com/github/sybila/biodivine/exe/RectMain.kt:85-88 | Different parameter indices hold different parameter sets. |
| Experiment.CandidateInjective | src/main/java/com/github/sybila/biodivine/Experiment.kt:48-52 | `base`, `base-1`, `base-2`, … are pairwise different names. |
| Experiment.TriedMembers | src/main/java/com/github/sybila/biodivine/Experiment.kt:49-53 | The names tried before k are exactly candidates 0..k-1. |
| Experiment.NotYetTried | src/main/java/com/github/sybila/biodivine/Experiment.kt:49-53 | Candidate k has not been tried before step k. |
| Experiment.FewerLeft | src/main/java/com/github/sybila/biodivine/Experiment.kt:50-53 | Each existing candidate leaves fewer existing names untried, so the search ends. |
| Experiment.FreeFrom | src/main/java/com/github/sybila/biodivine/Experiment.kt:50-53 | The search from k ends at k or later. |
| Experiment.FreeFromIsFirst | src/main/java/com/github/sybila/biodivine/Experiment.kt:50-53 | The search from k ends at a free name, and every candidate before it exists. |
| Experiment.FirstFreeIsFirst | src/main/java/com/github/sybila/biodivine/Experiment.kt:47-53 | The chosen name does not exist, and all earlier candidates do. |
| Experiment.FirstFreeUnique | src/main/java/com/github/sybila/biodivine/Experiment.kt:49-53 | That index is the only one with this property. |
| Experiment.CreateUniqueExperimentName | src/main/java/com/github/sybila/biodivine/Experiment.kt:47-57 | The loop returns the first free candidate, or an error when `mkdir` fails on it. |
| Experiment.BaseWhenFree | src/main/java/com/github/sybila/biodivine/Experiment.kt:48-50 | A free `base` is taken as it is. |
| Experiment.GetComputerName | src/main/java/com/github/sybila/biodivine/Experiment.kt:63-72 | `COMPUTERNAME` wins when it is set. The name always comes from the environment or the local host, or is "Unknown". |
| Experiment.FirstPresent | src/main/java/com/github/sybila/biodivine/Experiment.kt:65 | An elvis chain returns some present option, or the default. |
| Experiment.ComputerNameOrder | src/main/java/com/github/sybila/biodivine/Experiment.kt:63-72 | The name is the first present of `COMPUTERNAME`, `HOSTNAME` and the local host name, else "Unknown". |
| Experiment.SetupExperiment | src/main/java/com/github/sybila/biodivine/Experiment.kt:11-45 | `build-info.txt` is written iff `printBuildInfo` is true or absent. `environment-info.txt` is written iff `printEnvironmentInfo` is true or absent, whatever `printBuildInfo` says, as long as it is a Boolean. A non-Boolean flag fails at its own cast. |
| Experiment.SetupDefaults | src/main/java/com/github/sybila/biodivine/Experiment.kt:12-34 | The empty configuration writes both files. |

## Left out

- **Processes and I/O.** Process start, `ssh`, timeouts, stream draining and threads
  (`guardedProcess`, `guardedRemoteProcess`) are not modelled. A process is its exit code,
  given as a function of the rank. The file is its list of lines. A directory's existence
  is a set of names, and `mkdir` is a predicate on names.
- **Concurrency.** The per-host threads and the unsynchronised `shouldDie` flag are
  sequentialised as a fold over the ranks. Races are not modelled.
- **External libraries.** YAML parsing, Gson/JSON output, the `toString()` of the YAML
  mapping, `NodeEncoder` and the states' `expand`, `Expr.toR` and `readSMT` are external
  and not modelled. The printers' `parameterValues` of the two SMT printers are therefore
  left out. The rectangle renderer of `exe/RectMain.kt` is a function parameter.
- **Iteration order.** The iteration order of the result maps is given as a sequence of
  (formula, entries) pairs.
- **Equality.** `HashMap` key equality is Dafny equality. `normalize().purify()` is a
  function parameter.
- **Environment.** System properties, environment variables and the local host name are
  fields of an environment value or parameters. Only `getJavaLocation` depends on the OS
  name: it uses `\` when the name starts with "Win", and `/` otherwise.
- Task.AbsolutePath: paths are joined with `/` and not normalised. The source's
  `absolutePath` drops duplicate and trailing separators, and resolves `File("")` to
  `user.dir` itself. The same holds for Task.TaskRoot and the record's path: `File(root, name)`
  joins with the platform separator, but the model always joins with `/`.
- TaskConfiguration.GetStringList: a list item that is a mapping, or a list holding one,
  is refused with an error. The source renders it with the mapping's `toString()`,
  `{k=v, …}` in the YAML reader's key order, which the model does not capture.
- Strings.ParseInt32: only the ASCII digits `0`-`9` are accepted. `Integer.parseInt`
  also accepts the other Unicode decimal digits, such as Arabic-Indic ones.
- Experiment.SetupExperiment: the files' contents are not modelled. They are build
  constants, the date, the processor count and memory figures. Only which files are
  written, and the cast failure on a non-boolean flag, are modelled.
- Experiment.CreateUniqueExperimentName: the `counter` is unbounded. The source's `Int`
  counter could only wrap after 2^31 existing directories.
- Utility.ToLogLevel: the CONFIG level has no name in `toLogLevel`, so the level round
  trip is stated for the other eight levels.
- Z3Main.ToR: the error of an unsupported name carries only the function name, not
  the term's printed form. A missing comparison argument, an index exception in the
  source, is an error value.
- **Configuration values.** YAML values are strings, integers, booleans, lists and
  mappings. An explicit `null` is the same as an absent key. `File(path)` is the path
  string.
- Task.PlanTask: logging calls are not modelled.
- Task.PlanTask: the level argument sent to the workers is lowered in the root locale.
  The source lowers it in the JVM's default locale, so the dispatcher model assumes a
  default locale that is not Turkic. The Turkic case is the second finding below.
- Task.PlanLaunch: the cluster plan is built from the corrected record `Task.MpjConfig`, not
  from the 32-bit loop as written. The two agree when both bounds are at most
  `Int.MAX_VALUE - 2` (`Task.AsWrittenAgrees`). Above that, the source writes the record and
  launches where the plan is out of ports: one host on `2147483646-2147483647`
  (`Task.NearTopAccepted`) or on `2147483647-2147483647` (the first finding below).
- Strings.Lower: only the ASCII capitals `A`-`Z` are lowered. Root-locale `toLowerCase()`
  lowers every cased letter and can lengthen the text (`İ` becomes `i̇`). Only the ASCII
  level names are lowered.

## Findings

| source | as written | input that shows it | evidently intended | confidence | as-written member | corrected member |
|---|---|---|---|---|---|---|
| src/main/java/com/github/sybila/biodivine/Task.kt:125-129 | `usedPort + 1` and `usedPort += 2` are 32-bit `Int` sums. At the top of `Int` they wrap to negative numbers and pass the `usedPort > upperPort` check. | One host with the port range `2147483647-2147483647`. The file gets the line `host@2147483647@-2147483648@0$0` and no error. With `2147483646-2147483647` the cursor also wraps, and the host gets the range's last port (`Task.NearTopAccepted`). | The range holds no pair of ports, so it is out of ports. | not executed | Task.OverflowAccepted | Task.TopRangeRefused |
| src/main/java/com/github/sybila/biodivine/Task.kt:36 | `toLowerCase()` lowers the level name in the JVM's default locale. | Default locale Turkish and console level INFO. The worker receives `ınfo` with a dotless ı, and `toLogLevel` rejects it. | Lowering in the root locale, so the worker receives `info`. | not executed | Utility.TurkicLocaleBreaksInfo | Utility.LevelRoundTrip |
