/** Loading of a CTL parameter-estimation task from its YAML configuration:
    typed accessors over a YAML mapping, one total decision function per
    configuration section, and an encoder per section that writes a
    configuration the loader reads back unchanged. */
module TaskConfiguration {
  import opened Base
  import opened Strings
  import opened Utility

  /** A YAML value as the YAML reader hands it over; an explicit `null` in the
      document reads like an absent key. */
  datatype YamlValue =
    | YNull
    | YStr(str: string)
    | YInt(num: int)
    | YBool(flag: bool)
    | YList(items: seq<YamlValue>)
    | YMap(entries: map<string, YamlValue>)

  type YamlMap = map<string, YamlValue>

  /* Accessors of `YamlMap`: a value of the wrong type is a ClassCastException. */

  /** `getAny`: the value under `key`, absent keys and `null` alike giving None. */
  function GetAny(m: YamlMap, key: string): Option<YamlValue>
  {
    if key in m && !m[key].YNull? then Some(m[key]) else None
  }

  /** `getString(key)`. */
  function GetString(m: YamlMap, key: string): (r: Result<Option<string>>)
    ensures GetAny(m, key).None? ==> r == Ok(None)
    ensures GetAny(m, key).Some? && GetAny(m, key).value.YStr? ==> r == Ok(Some(GetAny(m, key).value.str))
    ensures r.Ok? && r.value.Some? ==> GetAny(m, key) == Some(YStr(r.value.value))
    ensures r.Err? <==> GetAny(m, key).Some? && !GetAny(m, key).value.YStr?
  {
    match GetAny(m, key)
    case None => Ok(None)
    case Some(v) => if v.YStr? then Ok(Some(v.str)) else Err(TypeMismatch(key))
  }

  /** `getString(key, default)`. */
  function GetStringOr(m: YamlMap, key: string, default: string): (r: Result<string>)
    ensures GetAny(m, key).None? ==> r == Ok(default)
    ensures r.Ok? && GetAny(m, key).Some? ==> GetAny(m, key) == Some(YStr(r.value))
    ensures r.Err? <==> GetAny(m, key).Some? && !GetAny(m, key).value.YStr?
  {
    var s :- GetString(m, key);
    Ok(if s.Some? then s.value else default)
  }

  /** `getInt(key, default)`: only values of the `Int` range are read as `Int`. */
  function GetInt(m: YamlMap, key: string, default: int): (r: Result<int>)
    ensures GetAny(m, key).None? ==> r == Ok(default)
    ensures r.Ok? && GetAny(m, key).Some? ==> GetAny(m, key) == Some(YInt(r.value)) && IsInt32(r.value)
    ensures r.Err? <==> GetAny(m, key).Some? && !(GetAny(m, key).value.YInt? && IsInt32(GetAny(m, key).value.num))
  {
    match GetAny(m, key)
    case None => Ok(default)
    case Some(v) => if v.YInt? && IsInt32(v.num) then Ok(v.num) else Err(TypeMismatch(key))
  }

  /** `getBoolean(key, default)`. */
  function GetBool(m: YamlMap, key: string, default: bool): (r: Result<bool>)
    ensures GetAny(m, key).None? ==> r == Ok(default)
    ensures r.Ok? && GetAny(m, key).Some? ==> GetAny(m, key) == Some(YBool(r.value))
    ensures r.Err? <==> GetAny(m, key).Some? && !GetAny(m, key).value.YBool?
  {
    match GetAny(m, key)
    case None => Ok(default)
    case Some(v) => if v.YBool? then Ok(v.flag) else Err(TypeMismatch(key))
  }

  /** `getMap(key)`: an absent section reads as an empty mapping. */
  function GetMap(m: YamlMap, key: string): (r: Result<YamlMap>)
    ensures GetAny(m, key).None? ==> r == Ok(map[])
    ensures r.Ok? && GetAny(m, key).Some? ==> GetAny(m, key) == Some(YMap(r.value))
    ensures r.Err? <==> GetAny(m, key).Some? && !GetAny(m, key).value.YMap?
  {
    match GetAny(m, key)
    case None => Ok(map[])
    case Some(v) => if v.YMap? then Ok(v.entries) else Err(TypeMismatch(key))
  }

  /** `getFile(key)`: a path given as a string. */
  function GetFile(m: YamlMap, key: string): (r: Result<Option<string>>)
    ensures r == GetString(m, key)
  {
    GetString(m, key)
  }

  /** `toString()` of a list element. A mapping is not rendered (None). */
  function Render(v: YamlValue): (r: Option<string>)
    ensures v.YStr? ==> r == Some(v.str)
    ensures v.YInt? && IsInt32(v.num) ==> r.Some? && ParseInt32(r.value) == Some(v.num)
    ensures r.None? <==> v.YMap? || (v.YList? && exists i :: 0 <= i < |v.items| && Render(v.items[i]).None?)
  {
    match v
    case YNull => Some("null")
    case YStr(s) => Some(s)
    case YInt(i) =>
      if IsInt32(i) then IntToStringRoundTrip(i); Some(IntToString(i)) else Some(IntToString(i))
    case YBool(b) => Some(if b then "true" else "false")
    case YList(items) =>
      if forall i :: 0 <= i < |items| ==> Render(items[i]).Some? then
        Some("[" + Join(", ", seq(|items|, i requires 0 <= i < |items| => Render(items[i]).value)) + "]")
      else None
    case YMap(_) => None
  }

  /** `getStringList(key)`: every element through `toString()`; an absent key
      reads as the empty list. */
  function GetStringList(m: YamlMap, key: string): (r: Result<seq<string>>)
    ensures GetAny(m, key).None? ==> r == Ok([])
    ensures r.Ok? <==> GetAny(m, key).None? ||
                       (GetAny(m, key).value.YList? &&
                        forall i :: 0 <= i < |GetAny(m, key).value.items| ==> Render(GetAny(m, key).value.items[i]).Some?)
    ensures GetAny(m, key).Some? && !GetAny(m, key).value.YList? ==> r == Err(TypeMismatch(key))
    ensures r.Ok? && GetAny(m, key).Some? ==> GetAny(m, key).value.YList? && |r.value| == |GetAny(m, key).value.items|
    ensures r.Ok? && GetAny(m, key).Some? ==> forall i :: 0 <= i < |r.value| ==> Render(GetAny(m, key).value.items[i]) == Some(r.value[i])
  {
    match GetAny(m, key)
    case None => Ok([])
    case Some(v) =>
      if !v.YList? then Err(TypeMismatch(key))
      else
        if forall i :: 0 <= i < |v.items| ==> Render(v.items[i]).Some? then
          Ok(seq(|v.items|, i requires 0 <= i < |v.items| => Render(v.items[i]).value))
        else Err(UnsupportedValue("map as list element"))
  }

  /** `getLogLevel(key, default)`. */
  function GetLogLevel(m: YamlMap, key: string, default: Level): (r: Result<Level>)
    ensures GetAny(m, key).None? ==> r == Ok(default)
    ensures GetAny(m, key).Some? && GetAny(m, key).value.YStr? ==> r == ToLogLevel(GetAny(m, key).value.str)
    ensures GetAny(m, key).Some? && !GetAny(m, key).value.YStr? ==> r == Err(TypeMismatch(key))
  {
    var s :- GetString(m, key);
    if s.None? then Ok(default) else ToLogLevel(s.value)
  }

  /* The configuration sections. */

  datatype Partitioning = Uniform | Hash | Slice | Block(blockSize: int)

  datatype JobQueue = Blocking(logLevel: Level) | Merge(logLevel: Level)

  datatype Communicator =
    | NoCommunicator
    | Shared(workers: int)
    | MpjLocal(workers: int, mpjHome: Option<string>, logLevel: Level)
    | MpjCluster(mpjHome: Option<string>, logLevel: Level, hosts: seq<string>, portRange: string)

  datatype NormalForm = UntilNormalForm | NoNormalForm

  datatype ParserConfig = ParserConfig(normalForm: NormalForm, optimize: bool, logLevel: Level)

  datatype ModelConfig = OdeModel(file: string, fastApproximation: bool, cutToRange: bool, selfLoops: bool)

  datatype CheckerConfig = CheckerConfig(logLevel: Level)

  datatype Colors = Rectangular | Smt

  datatype TaskConfig = TaskConfig(
    maxMemory: int,
    timeout: int,
    jobQueue: JobQueue,
    communicator: Communicator,
    partitioning: Partitioning,
    parser: ParserConfig,
    model: ModelConfig,
    checker: CheckerConfig,
    colors: Colors)

  /** A value that is neither a mapping nor one of the `known` bare names. */
  predicate OtherBareValue(v: Option<YamlValue>, known: set<string>)
  {
    v.Some? && !v.value.YMap? && !(v.value.YStr? && v.value.str in known)
  }

  /** A mapping whose `type` is the string `t`. */
  predicate TypedMap(v: Option<YamlValue>, t: string)
  {
    v.Some? && v.value.YMap? && GetAny(v.value.entries, "type") == Some(YStr(t))
  }

  /** The entries of a section that `TypedMap` describes. */
  function Section(v: Option<YamlValue>): YamlMap
  {
    if v.Some? && v.value.YMap? then v.value.entries else map[]
  }

  /** A mapping whose `type` is a string outside `known`, or is missing. */
  predicate OtherMapType(v: Option<YamlValue>, known: set<string>)
  {
    v.Some? && v.value.YMap? &&
    GetString(v.value.entries, "type").Ok? &&
    (GetString(v.value.entries, "type").value.None? || GetString(v.value.entries, "type").value.value !in known)
  }

  /** `loadPartitioningConfig()`. */
  function LoadPartitioning(m: YamlMap): (r: Result<Partitioning>)
    ensures GetAny(m, "partitioning").None? ==> r == Ok(Uniform)
    ensures GetAny(m, "partitioning") == Some(YStr("block")) ==> r == Ok(Block(100))
    ensures (TypedMap(GetAny(m, "partitioning"), "block") &&
            GetAny(Section(GetAny(m, "partitioning")), "blockSize").None?) ==> r == Ok(Block(100))
    ensures OtherBareValue(GetAny(m, "partitioning"), {"uniform", "hash", "slice", "block"}) ==>
              r == Err(UnsupportedValue("partition function"))
    ensures OtherMapType(GetAny(m, "partitioning"), {"uniform", "hash", "slice", "block"}) ==>
              r == Err(UnsupportedValue("partition function"))
  {
    match GetAny(m, "partitioning")
    case None => Ok(Uniform)
    case Some(v) =>
      if v == YStr("uniform") then Ok(Uniform)
      else if v == YStr("hash") then Ok(Hash)
      else if v == YStr("slice") then Ok(Slice)
      else if v == YStr("block") then Ok(Block(100))
      else if v.YMap? then
        var t :- GetString(v.entries, "type");
        if t == Some("uniform") then Ok(Uniform)
        else if t == Some("hash") then Ok(Hash)
        else if t == Some("slice") then Ok(Slice)
        else if t == Some("block") then
          var size :- GetInt(v.entries, "blockSize", 100);
          Ok(Block(size))
        else Err(UnsupportedValue("partition function"))
      else Err(UnsupportedValue("partition function"))
  }

  /** `loadJobQueueConfig()`. */
  function LoadJobQueue(m: YamlMap): (r: Result<JobQueue>)
    ensures GetAny(m, "jobQueue").None? ==> r == Ok(Blocking(Info))
    ensures GetAny(m, "jobQueue") == Some(YStr("blockingQueue")) ==> r == Ok(Blocking(Info))
    ensures GetAny(m, "jobQueue") == Some(YStr("mergeQueue")) ==> r == Ok(Merge(Info))
    ensures (TypedMap(GetAny(m, "jobQueue"), "blockingQueue") &&
            GetAny(Section(GetAny(m, "jobQueue")), "logLevel").None?) ==> r == Ok(Blocking(Info))
    ensures (TypedMap(GetAny(m, "jobQueue"), "mergeQueue") &&
            GetAny(Section(GetAny(m, "jobQueue")), "logLevel").None?) ==> r == Ok(Merge(Info))
    ensures OtherBareValue(GetAny(m, "jobQueue"), {"blockingQueue", "mergeQueue"}) ==>
              r == Err(UnsupportedValue("job queue config"))
    ensures OtherMapType(GetAny(m, "jobQueue"), {"blockingQueue", "mergeQueue"}) ==>
              r == Err(UnsupportedValue("job queue config"))
  {
    match GetAny(m, "jobQueue")
    case None => Ok(Blocking(Info))
    case Some(v) =>
      if v == YStr("blockingQueue") then Ok(Blocking(Info))
      else if v == YStr("mergeQueue") then Ok(Merge(Info))
      else if v.YMap? then
        var t :- GetString(v.entries, "type");
        if t == Some("blockingQueue") then
          var level :- GetLogLevel(v.entries, "logLevel", Info);
          Ok(Blocking(level))
        else if t == Some("mergeQueue") then
          var level :- GetLogLevel(v.entries, "logLevel", Info);
          Ok(Merge(level))
        else Err(UnsupportedValue("job queue config"))
      else Err(UnsupportedValue("job queue config"))
  }

  /** `MPJClusterCommunicatorConfig(YamlMap)`. */
  function LoadCluster(c: YamlMap): (r: Result<Communicator>)
    ensures r.Ok? ==> r.value.MpjCluster?
    ensures r.Ok? ==> GetString(c, "portRange") == Ok(Some(r.value.portRange))
    ensures GetAny(c, "hosts").None? && r.Ok? ==> r.value.hosts == []
    ensures (GetFile(c, "mpjHome").Ok? && GetLogLevel(c, "logLevel", Info).Ok? && GetStringList(c, "hosts").Ok? &&
             GetString(c, "portRange") == Ok(None)) ==> r == Err(MissingPortRange)
  {
    var home :- GetFile(c, "mpjHome");
    var level :- GetLogLevel(c, "logLevel", Info);
    var hosts :- GetStringList(c, "hosts");
    var range :- GetString(c, "portRange");
    if range.None? then Err(MissingPortRange) else Ok(MpjCluster(home, level, hosts, range.value))
  }

  /** `loadCommunicatorConfig()`. */
  function LoadCommunicator(m: YamlMap): (r: Result<Communicator>)
    ensures GetAny(m, "communicator").None? ==> r == Ok(NoCommunicator)
    ensures GetAny(m, "communicator") == Some(YStr("mpjCluster")) ==> r == Err(MissingHostList)
    ensures GetAny(m, "communicator") == Some(YStr("sharedMemory")) ==> r == Ok(Shared(1))
    ensures GetAny(m, "communicator") == Some(YStr("mpjLocal")) ==> r == Ok(MpjLocal(1, None, Info))
    ensures (TypedMap(GetAny(m, "communicator"), "sharedMemory") &&
            GetAny(Section(GetAny(m, "communicator")), "workers").None?) ==> r == Ok(Shared(1))
    ensures (TypedMap(GetAny(m, "communicator"), "mpjLocal") &&
            GetAny(Section(GetAny(m, "communicator")), "workers").None? && r.Ok?) ==>
              r.value.MpjLocal? && r.value.workers == 1
    ensures r.Ok? && r.value.MpjCluster? ==>
              GetAny(m, "communicator").Some? && GetAny(m, "communicator").value.YMap? &&
              GetAny(GetAny(m, "communicator").value.entries, "type") == Some(YStr("mpjCluster"))
    ensures OtherBareValue(GetAny(m, "communicator"), {"none", "sharedMemory", "mpjLocal", "mpjCluster"}) ==>
              r == Err(UnsupportedValue("communicator config"))
    ensures OtherMapType(GetAny(m, "communicator"), {"none", "sharedMemory", "mpjLocal", "mpjCluster"}) ==>
              r == Err(UnsupportedValue("communicator config"))
  {
    match GetAny(m, "communicator")
    case None => Ok(NoCommunicator)
    case Some(v) =>
      if v == YStr("none") then Ok(NoCommunicator)
      else if v == YStr("sharedMemory") then Ok(Shared(1))
      else if v == YStr("mpjLocal") then Ok(MpjLocal(1, None, Info))
      else if v == YStr("mpjCluster") then Err(MissingHostList)
      else if v.YMap? then
        var c := v.entries;
        var t :- GetString(c, "type");
        if t == Some("none") then Ok(NoCommunicator)
        else if t == Some("sharedMemory") then
          var workers :- GetInt(c, "workers", 1);
          Ok(Shared(workers))
        else if t == Some("mpjLocal") then
          var workers :- GetInt(c, "workers", 1);
          var home :- GetFile(c, "mpjHome");
          var level :- GetLogLevel(c, "logLevel", Info);
          Ok(MpjLocal(workers, home, level))
        else if t == Some("mpjCluster") then LoadCluster(c)
        else Err(UnsupportedValue("communicator config"))
      else Err(UnsupportedValue("communicator config"))
  }

  /** `loadParserConfig()`: the normal form comes from the `ctlParser` section,
      the log level and `optimize` from a task's own mapping. */
  function LoadParser(m: YamlMap): (r: Result<ParserConfig>)
    ensures GetAny(m, "ctlParser").None? && GetAny(m, "logLevel").None? && GetAny(m, "optimize").None? ==>
              r == Ok(ParserConfig(UntilNormalForm, true, Info))
    ensures r.Ok? && GetAny(m, "optimize").None? ==> r.value.optimize
    ensures r.Ok? && GetAny(m, "logLevel").None? ==> r.value.logLevel == Info
    ensures r.Ok? && GetAny(m, "ctlParser").None? ==> r.value.normalForm == UntilNormalForm
    ensures r.Ok? && r.value.normalForm == NoNormalForm ==>
              GetMap(m, "ctlParser").Ok? &&
              GetAny(GetMap(m, "ctlParser").value, "normalForm") == Some(YStr("none"))
    ensures (GetMap(m, "ctlParser").Ok? && GetLogLevel(m, "logLevel", Info).Ok? &&
             GetAny(GetMap(m, "ctlParser").value, "normalForm").Some? &&
             GetAny(GetMap(m, "ctlParser").value, "normalForm").value.YStr? &&
             GetAny(GetMap(m, "ctlParser").value, "normalForm").value.str !in {"until", "none"}) ==>
              r.Err? && r.error.UnknownNormalForm?
  {
    var parser :- GetMap(m, "ctlParser");
    var normalForm :- GetStringOr(parser, "normalForm", "until");
    var level :- GetLogLevel(m, "logLevel", Info);
    var form :- if normalForm == "until" then Ok(UntilNormalForm)
                else if normalForm == "none" then Ok(NoNormalForm)
                else Err(UnknownNormalForm(normalForm));
    var optimize :- GetBool(m, "optimize", true);
    Ok(ParserConfig(form, optimize, level))
  }

  /** `ODEModelConfig(YamlMap)`. */
  function LoadOde(c: YamlMap): (r: Result<ModelConfig>)
    ensures GetFile(c, "file") == Ok(None) ==> r == Err(MissingModelFile)
    ensures r.Ok? ==> GetFile(c, "file") == Ok(Some(r.value.file))
    ensures (GetAny(c, "fastApproximation").None? && GetAny(c, "cutToRange").None? && GetAny(c, "selfLoops").None? &&
             r.Ok?) ==> !r.value.fastApproximation && !r.value.cutToRange && r.value.selfLoops
    ensures r.Ok? && GetAny(c, "fastApproximation").None? ==> !r.value.fastApproximation
    ensures r.Ok? && GetAny(c, "cutToRange").None? ==> !r.value.cutToRange
    ensures r.Ok? && GetAny(c, "selfLoops").None? ==> r.value.selfLoops
  {
    var file :- GetFile(c, "file");
    if file.None? then Err(MissingModelFile)
    else
      var fast :- GetBool(c, "fastApproximation", false);
      var cut :- GetBool(c, "cutToRange", false);
      var loops :- GetBool(c, "selfLoops", true);
      Ok(OdeModel(file.value, fast, cut, loops))
  }

  /** `loadModelConfig()`: ODE is the only model type, and the default one. */
  function LoadModel(m: YamlMap): (r: Result<ModelConfig>)
    ensures (GetMap(m, "model").Ok? && GetStringOr(GetMap(m, "model").value, "type", "ODE").Ok? &&
             GetStringOr(GetMap(m, "model").value, "type", "ODE").value != "ODE") ==>
              r == Err(UnsupportedValue("model type"))
    ensures r.Ok? ==> GetMap(m, "model").Ok? && r == LoadOde(GetMap(m, "model").value)
  {
    var model :- GetMap(m, "model");
    var t :- GetStringOr(model, "type", "ODE");
    if t == "ODE" then LoadOde(model) else Err(UnsupportedValue("model type"))
  }

  /** `loadCheckerConfig()`. */
  function LoadChecker(m: YamlMap): (r: Result<CheckerConfig>)
    ensures GetAny(m, "checker").None? ==> r == Ok(CheckerConfig(Info))
    ensures GetAny(m, "checker").Some? && !GetAny(m, "checker").value.YMap? ==> r == Err(TypeMismatch("checker"))
    ensures GetAny(m, "checker").Some? && GetAny(m, "checker").value.YMap? ==>
              var c := GetAny(m, "checker").value.entries;
              (GetAny(c, "logLevel").None? ==> r == Ok(CheckerConfig(Info))) &&
              (GetAny(c, "logLevel").Some? && GetAny(c, "logLevel").value.YStr? ==>
                 var l := ToLogLevel(GetAny(c, "logLevel").value.str);
                 r == if l.Ok? then Ok(CheckerConfig(l.value)) else Err(l.error))
  {
    var checker :- GetMap(m, "checker");
    var level :- GetLogLevel(checker, "logLevel", Info);
    Ok(CheckerConfig(level))
  }

  /** `loadColorsConfig()`: unlike the other sections, a mapping without `type`
      means rectangular colors. */
  function LoadColors(m: YamlMap): (r: Result<Colors>)
    ensures GetAny(m, "colors").None? ==> r == Ok(Rectangular)
    ensures (GetAny(m, "colors").Some? && GetAny(m, "colors").value.YMap? &&
             GetAny(GetAny(m, "colors").value.entries, "type").None?) ==> r == Ok(Rectangular)
    ensures OtherBareValue(GetAny(m, "colors"), {"rectangular", "smt"}) ==>
              r == Err(UnsupportedValue("colors type"))
    ensures GetAny(m, "colors") == Some(YStr("smt")) ==> r == Ok(Smt)
    ensures GetAny(m, "colors").Some? && GetAny(m, "colors").value.YMap? &&
            GetAny(GetAny(m, "colors").value.entries, "type").Some? &&
            GetAny(GetAny(m, "colors").value.entries, "type").value.YStr? ==>
              var t := GetAny(GetAny(m, "colors").value.entries, "type").value.str;
              r == if t == "rectangular" then Ok(Rectangular) else if t == "smt" then Ok(Smt)
                   else Err(UnsupportedValue("colors type"))
  {
    match GetAny(m, "colors")
    case None => Ok(Rectangular)
    case Some(v) =>
      if v == YStr("rectangular") then Ok(Rectangular)
      else if v == YStr("smt") then Ok(Smt)
      else if v.YMap? then
        var t :- GetStringOr(v.entries, "type", "rectangular");
        if t == "rectangular" then Ok(Rectangular)
        else if t == "smt" then Ok(Smt)
        else Err(UnsupportedValue("colors type"))
      else Err(UnsupportedValue("colors type"))
  }

  /** `CTLParameterEstimationConfig(YamlMap)`: the sections in the order the
      constructor reads them; the first failure is the result. */
  function LoadTaskConfig(m: YamlMap): (r: Result<TaskConfig>)
    ensures GetAny(m, "maxMemory").None? && r.Ok? ==> r.value.maxMemory == 1024
    ensures GetAny(m, "timeout").None? && r.Ok? ==> r.value.timeout == -1
    ensures r.Ok? ==> IsInt32(r.value.maxMemory) && IsInt32(r.value.timeout)
    ensures r.Ok? ==> LoadCommunicator(m) == Ok(r.value.communicator) && LoadModel(m) == Ok(r.value.model)
  {
    var maxMemory :- GetInt(m, "maxMemory", 1024);
    var timeout :- GetInt(m, "timeout", -1);
    var jobQueue :- LoadJobQueue(m);
    var communicator :- LoadCommunicator(m);
    var partitioning :- LoadPartitioning(m);
    var parser :- LoadParser(m);
    var model :- LoadModel(m);
    var checker :- LoadChecker(m);
    var colors :- LoadColors(m);
    Ok(TaskConfig(maxMemory, timeout, jobQueue, communicator, partitioning, parser, model, checker, colors))
  }

  /** The smallest configuration: a model section holding only its file. */
  function MinimalConfig(file: string): YamlMap
  {
    map["model" := YMap(map["file" := YStr(file)])]
  }

  /** Every section may be left out except the model file. */
  lemma MinimalTaskConfig(file: string)
    ensures LoadTaskConfig(MinimalConfig(file)) ==
            Ok(TaskConfig(1024, -1, Blocking(Info), NoCommunicator, Uniform,
                          ParserConfig(UntilNormalForm, true, Info),
                          OdeModel(file, false, false, true), CheckerConfig(Info), Rectangular))
    ensures LoadTaskConfig(map[]) == Err(MissingModelFile)
  {
    MinimalRuntimeSections(file);
    MinimalModelSections(file);
    LoadTaskConfigOfSections(MinimalConfig(file),
                             TaskConfig(1024, -1, Blocking(Info), NoCommunicator, Uniform,
                                        ParserConfig(UntilNormalForm, true, Info),
                                        OdeModel(file, false, false, true), CheckerConfig(Info), Rectangular));
    EmptyConfigFails();
  }

  lemma MinimalRuntimeSections(file: string)
    ensures var m := MinimalConfig(file);
            GetInt(m, "maxMemory", 1024) == Ok(1024) && GetInt(m, "timeout", -1) == Ok(-1) &&
            LoadJobQueue(m) == Ok(Blocking(Info)) && LoadCommunicator(m) == Ok(NoCommunicator) &&
            LoadPartitioning(m) == Ok(Uniform)
  {
  }

  lemma MinimalModelSections(file: string)
    ensures var m := MinimalConfig(file);
            LoadParser(m) == Ok(ParserConfig(UntilNormalForm, true, Info)) &&
            LoadModel(m) == Ok(OdeModel(file, false, false, true)) &&
            LoadChecker(m) == Ok(CheckerConfig(Info)) && LoadColors(m) == Ok(Rectangular)
  {
    var m := MinimalConfig(file);
    assert GetMap(m, "model") == Ok(map["file" := YStr(file)]);
  }

  lemma EmptyConfigFails()
    ensures LoadTaskConfig(map[]) == Err(MissingModelFile)
  {
    assert GetMap(map[], "model") == Ok(map[]);
  }

  /* Encoders: a configuration that the loader reads back as the given value. */

  function LevelValue(l: Level): YamlValue { YStr(WorkerLevelArg(l)) }

  /** A value whose integers fit an `Int` and whose levels have a configuration
      name (every level but CONFIG). */
  predicate Representable(tc: TaskConfig)
  {
    IsInt32(tc.maxMemory) && IsInt32(tc.timeout) &&
    tc.jobQueue.logLevel != Config &&
    (tc.communicator.Shared? ==> IsInt32(tc.communicator.workers)) &&
    (tc.communicator.MpjLocal? ==> IsInt32(tc.communicator.workers) && tc.communicator.logLevel != Config) &&
    (tc.communicator.MpjCluster? ==> tc.communicator.logLevel != Config) &&
    (tc.partitioning.Block? ==> IsInt32(tc.partitioning.blockSize)) &&
    tc.parser.logLevel != Config &&
    tc.checker.logLevel != Config
  }

  function EncodePartitioning(p: Partitioning): YamlValue
  {
    match p
    case Uniform => YStr("uniform")
    case Hash => YStr("hash")
    case Slice => YStr("slice")
    case Block(n) => YMap(map["type" := YStr("block"), "blockSize" := YInt(n)])
  }

  function EncodeJobQueue(q: JobQueue): YamlValue
  {
    YMap(map["type" := YStr(if q.Blocking? then "blockingQueue" else "mergeQueue"),
             "logLevel" := LevelValue(q.logLevel)])
  }

  function WithHome(c: YamlMap, home: Option<string>): YamlMap
  {
    if home.Some? then c["mpjHome" := YStr(home.value)] else c
  }

  function EncodeHosts(hosts: seq<string>): YamlValue
  {
    YList(seq(|hosts|, i requires 0 <= i < |hosts| => YStr(hosts[i])))
  }

  function EncodeCommunicator(c: Communicator): YamlValue
  {
    match c
    case NoCommunicator => YStr("none")
    case Shared(w) => YMap(map["type" := YStr("sharedMemory"), "workers" := YInt(w)])
    case MpjLocal(w, home, l) =>
      YMap(WithHome(map["type" := YStr("mpjLocal"), "workers" := YInt(w), "logLevel" := LevelValue(l)], home))
    case MpjCluster(home, l, hosts, range) =>
      YMap(WithHome(map["type" := YStr("mpjCluster"), "logLevel" := LevelValue(l),
                        "hosts" := EncodeHosts(hosts), "portRange" := YStr(range)], home))
  }

  function EncodeModel(mc: ModelConfig): YamlValue
  {
    YMap(map["file" := YStr(mc.file), "fastApproximation" := YBool(mc.fastApproximation),
             "cutToRange" := YBool(mc.cutToRange), "selfLoops" := YBool(mc.selfLoops)])
  }

  function EncodeColors(c: Colors): YamlValue
  {
    if c == Rectangular then YStr("rectangular") else YStr("smt")
  }

  /** A task configuration written out as the YAML mapping of one task. */
  function EncodeTaskConfig(tc: TaskConfig): YamlMap
  {
    map[
      "maxMemory" := YInt(tc.maxMemory),
      "timeout" := YInt(tc.timeout),
      "jobQueue" := EncodeJobQueue(tc.jobQueue),
      "communicator" := EncodeCommunicator(tc.communicator),
      "partitioning" := EncodePartitioning(tc.partitioning),
      "ctlParser" := YMap(map["normalForm" := YStr(if tc.parser.normalForm == UntilNormalForm then "until" else "none")]),
      "logLevel" := LevelValue(tc.parser.logLevel),
      "optimize" := YBool(tc.parser.optimize),
      "model" := EncodeModel(tc.model),
      "checker" := YMap(map["logLevel" := LevelValue(tc.checker.logLevel)]),
      "colors" := EncodeColors(tc.colors)
    ]
  }

  lemma LevelValueRoundTrip(m: YamlMap, key: string, l: Level)
    requires l != Config && GetAny(m, key) == Some(LevelValue(l))
    ensures GetLogLevel(m, key, Info) == Ok(l)
  {
    LevelRoundTrip(l);
  }

  lemma HostsRoundTrip(m: YamlMap, hosts: seq<string>)
    requires GetAny(m, "hosts") == Some(EncodeHosts(hosts))
    ensures GetStringList(m, "hosts") == Ok(hosts)
  {
    var items := EncodeHosts(hosts).items;
    assert forall i :: 0 <= i < |items| ==> Render(items[i]) == Some(hosts[i]);
    var out := seq(|items|, i requires 0 <= i < |items| => Render(items[i]).value);
    assert out == hosts;
  }

  lemma CommunicatorRoundTrip(m: YamlMap, c: Communicator)
    requires GetAny(m, "communicator") == Some(EncodeCommunicator(c))
    requires c.Shared? ==> IsInt32(c.workers)
    requires c.MpjLocal? ==> IsInt32(c.workers) && c.logLevel != Config
    requires c.MpjCluster? ==> c.logLevel != Config
    ensures LoadCommunicator(m) == Ok(c)
  {
    match c
    case NoCommunicator =>
    case Shared(w) =>
    case MpjLocal(w, home, l) => LocalRoundTrip(m, c);
    case MpjCluster(home, l, hosts, range) => ClusterRoundTrip(m, c);
  }

  /** An encoded local MPJ communicator loads back as it was. */
  lemma LocalRoundTrip(m: YamlMap, c: Communicator)
    requires GetAny(m, "communicator") == Some(EncodeCommunicator(c))
    requires c.MpjLocal? && IsInt32(c.workers) && c.logLevel != Config
    ensures LoadCommunicator(m) == Ok(c)
  {
    LevelValueRoundTrip(EncodeCommunicator(c).entries, "logLevel", c.logLevel);
  }

  /** An encoded cluster communicator loads back as it was. */
  lemma ClusterRoundTrip(m: YamlMap, c: Communicator)
    requires GetAny(m, "communicator") == Some(EncodeCommunicator(c))
    requires c.MpjCluster? && c.logLevel != Config
    ensures LoadCommunicator(m) == Ok(c)
  {
    var e := EncodeCommunicator(c).entries;
    LevelValueRoundTrip(e, "logLevel", c.logLevel);
    HostsRoundTrip(e, c.hosts);
    assert LoadCluster(e) == Ok(c);
  }

  lemma JobQueueRoundTrip(m: YamlMap, q: JobQueue)
    requires q.logLevel != Config && GetAny(m, "jobQueue") == Some(EncodeJobQueue(q))
    ensures LoadJobQueue(m) == Ok(q)
  {
    LevelValueRoundTrip(EncodeJobQueue(q).entries, "logLevel", q.logLevel);
  }

  lemma PartitioningRoundTrip(m: YamlMap, p: Partitioning)
    requires (p.Block? ==> IsInt32(p.blockSize)) && GetAny(m, "partitioning") == Some(EncodePartitioning(p))
    ensures LoadPartitioning(m) == Ok(p)
  {
  }

  lemma ParserRoundTrip(m: YamlMap, tc: TaskConfig)
    requires tc.parser.logLevel != Config && m == EncodeTaskConfig(tc)
    ensures LoadParser(m) == Ok(tc.parser)
  {
    LevelValueRoundTrip(m, "logLevel", tc.parser.logLevel);
    assert GetAny(m, "optimize") == Some(YBool(tc.parser.optimize));
  }

  lemma ModelRoundTrip(m: YamlMap, mc: ModelConfig)
    requires GetAny(m, "model") == Some(EncodeModel(mc))
    ensures LoadModel(m) == Ok(mc)
  {
    var e := EncodeModel(mc).entries;
    assert GetMap(m, "model") == Ok(e);
    assert GetStringOr(e, "type", "ODE") == Ok("ODE");
  }

  lemma CheckerRoundTrip(m: YamlMap, cc: CheckerConfig)
    requires cc.logLevel != Config && GetAny(m, "checker") == Some(YMap(map["logLevel" := LevelValue(cc.logLevel)]))
    ensures LoadChecker(m) == Ok(cc)
  {
    LevelValueRoundTrip(map["logLevel" := LevelValue(cc.logLevel)], "logLevel", cc.logLevel);
  }

  /** A task loader succeeds with the values its section loaders succeed with. */
  lemma LoadTaskConfigOfSections(m: YamlMap, tc: TaskConfig)
    requires GetInt(m, "maxMemory", 1024) == Ok(tc.maxMemory) && GetInt(m, "timeout", -1) == Ok(tc.timeout)
    requires LoadJobQueue(m) == Ok(tc.jobQueue) && LoadCommunicator(m) == Ok(tc.communicator)
    requires LoadPartitioning(m) == Ok(tc.partitioning) && LoadParser(m) == Ok(tc.parser)
    requires LoadModel(m) == Ok(tc.model) && LoadChecker(m) == Ok(tc.checker) && LoadColors(m) == Ok(tc.colors)
    ensures LoadTaskConfig(m) == Ok(tc)
  {
  }

  lemma EncodedSections(tc: TaskConfig)
    ensures var m := EncodeTaskConfig(tc);
            GetAny(m, "maxMemory") == Some(YInt(tc.maxMemory)) &&
            GetAny(m, "timeout") == Some(YInt(tc.timeout)) &&
            GetAny(m, "jobQueue") == Some(EncodeJobQueue(tc.jobQueue)) &&
            GetAny(m, "communicator") == Some(EncodeCommunicator(tc.communicator)) &&
            GetAny(m, "partitioning") == Some(EncodePartitioning(tc.partitioning)) &&
            GetAny(m, "model") == Some(EncodeModel(tc.model)) &&
            GetAny(m, "checker") == Some(YMap(map["logLevel" := LevelValue(tc.checker.logLevel)])) &&
            GetAny(m, "colors") == Some(EncodeColors(tc.colors))
  {
  }

  /** Writing a task configuration out and loading it gives it back. */
  lemma TaskConfigRoundTrip(tc: TaskConfig)
    requires Representable(tc)
    ensures LoadTaskConfig(EncodeTaskConfig(tc)) == Ok(tc)
  {
    var m := EncodeTaskConfig(tc);
    EncodedSections(tc);
    JobQueueRoundTrip(m, tc.jobQueue);
    CommunicatorRoundTrip(m, tc.communicator);
    PartitioningRoundTrip(m, tc.partitioning);
    ParserRoundTrip(m, tc);
    ModelRoundTrip(m, tc.model);
    CheckerRoundTrip(m, tc.checker);
    assert LoadColors(m) == Ok(tc.colors);
    LoadTaskConfigOfSections(m, tc);
  }
}
