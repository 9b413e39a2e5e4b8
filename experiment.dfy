/** Setting up an experiment's output directory: a name no existing directory
    has, the name of the computer, and which description files are written. */
module Experiment {
  import opened Base
  import opened Strings
  import opened TaskConfiguration

  /* ---------------------------------------------------------------------- */
  /* A fresh directory name (`createUniqueExperimentName`)                   */
  /* ---------------------------------------------------------------------- */

  /** The k-th name tried: `base` itself, then `base-1`, `base-2`, ... */
  function Candidate(base: string, k: nat): string
  {
    if k == 0 then base else base + "-" + NatToString(k)
  }

  /** Different attempts try different names. */
  lemma CandidateInjective(base: string, i: nat, j: nat)
    ensures Candidate(base, i) == Candidate(base, j) ==> i == j
  {
    if i != 0 && j != 0 {
      var n := |base| + 1;
      assert Candidate(base, i)[n..] == NatToString(i);
      assert Candidate(base, j)[n..] == NatToString(j);
      if NatToString(i) == NatToString(j) {
        NatToStringInjective(i, j);
      }
    } else if i != 0 || j != 0 {
      assert |Candidate(base, i)| != |Candidate(base, j)|;
    }
  }

  /** The names tried before the k-th. */
  function Tried(base: string, k: nat): set<string>
  {
    if k == 0 then {} else Tried(base, k - 1) + {Candidate(base, k - 1)}
  }

  lemma {:induction false} TriedMembers(base: string, k: nat, name: string)
    ensures name in Tried(base, k) <==> exists j :: 0 <= j < k && Candidate(base, j) == name
  {
    if k > 0 {
      TriedMembers(base, k - 1, name);
    }
  }

  lemma NotYetTried(base: string, k: nat)
    ensures Candidate(base, k) !in Tried(base, k)
  {
    TriedMembers(base, k, Candidate(base, k));
    forall j | 0 <= j < k
      ensures Candidate(base, j) != Candidate(base, k)
    {
      CandidateInjective(base, j, k);
    }
  }

  /** Adding the k-th name to the tried ones leaves fewer existing names untried. */
  lemma FewerLeft(base: string, existing: set<string>, k: nat)
    requires Candidate(base, k) in existing
    ensures |existing - Tried(base, k + 1)| < |existing - Tried(base, k)|
  {
    var left := existing - Tried(base, k);
    var c := Candidate(base, k);
    NotYetTried(base, k);
    assert existing - Tried(base, k + 1) == left - {c};
    assert left == (left - {c}) + {c};
  }

  /** The first attempt whose name does not exist, searched from attempt k. */
  function FreeFrom(base: string, existing: set<string>, k: nat): (r: nat)
    requires Tried(base, k) <= existing
    ensures k <= r
    decreases |existing - Tried(base, k)|
  {
    if Candidate(base, k) !in existing then k
    else
      FewerLeft(base, existing, k);
      FreeFrom(base, existing, k + 1)
  }

  /** The first attempt whose name does not exist. */
  function FirstFree(base: string, existing: set<string>): nat
  {
    FreeFrom(base, existing, 0)
  }

  /** The search from k ends at a free name and every name tried on the way exists. */
  lemma {:induction false} FreeFromIsFirst(base: string, existing: set<string>, k: nat)
    requires Tried(base, k) <= existing
    requires forall j | 0 <= j < k :: Candidate(base, j) in existing
    ensures Candidate(base, FreeFrom(base, existing, k)) !in existing
    ensures forall j | 0 <= j < FreeFrom(base, existing, k) :: Candidate(base, j) in existing
    decreases |existing - Tried(base, k)|
  {
    if Candidate(base, k) in existing {
      FewerLeft(base, existing, k);
      FreeFromIsFirst(base, existing, k + 1);
    }
  }

  /** The chosen name does not exist, and the name of every earlier attempt does. */
  lemma FirstFreeIsFirst(base: string, existing: set<string>)
    ensures Candidate(base, FirstFree(base, existing)) !in existing
    ensures forall j | 0 <= j < FirstFree(base, existing) :: Candidate(base, j) in existing
  {
    FreeFromIsFirst(base, existing, 0);
  }

  /** The attempt with those two properties is unique. */
  lemma FirstFreeUnique(base: string, existing: set<string>, k: nat)
    requires Candidate(base, k) !in existing
    requires forall j | 0 <= j < k :: Candidate(base, j) in existing
    ensures FirstFree(base, existing) == k
  {
    FirstFreeIsFirst(base, existing);
  }

  /** `createUniqueExperimentName`: the existing paths are the set `existing`
      and `mkdirSucceeds` tells whether creating a directory works. */
  method CreateUniqueExperimentName(base: string, existing: set<string>, mkdirSucceeds: string -> bool)
    returns (r: Result<string>)
    ensures var name := Candidate(base, FirstFree(base, existing));
            r == if mkdirSucceeds(name) then Ok(name) else Err(CannotCreateDirectory)
  {
    var dir := base;
    var counter := 0;
    while dir in existing
      invariant dir == Candidate(base, counter)
      invariant Tried(base, counter) <= existing
      invariant FreeFrom(base, existing, counter) == FirstFree(base, existing)
      decreases |existing - Tried(base, counter)|
    {
      FewerLeft(base, existing, counter);
      counter := counter + 1;
      dir := base + "-" + NatToString(counter);
    }
    if !mkdirSucceeds(dir) {
      r := Err(CannotCreateDirectory);
    } else {
      r := Ok(dir);
    }
  }

  /** When `base` does not exist it is the name chosen. */
  lemma BaseWhenFree(base: string, existing: set<string>)
    requires base !in existing
    ensures FirstFree(base, existing) == 0 && Candidate(base, 0) == base
  {
  }

  /* ---------------------------------------------------------------------- */
  /* The computer's name (`getComputerName`)                                 */
  /* ---------------------------------------------------------------------- */

  function Lookup(env: map<string, string>, key: string): Option<string>
  {
    if key in env then Some(env[key]) else None
  }

  /** Kotlin's elvis chain: the first value present, else the default. */
  function FirstPresent(options: seq<Option<string>>, default: string): (r: string)
    ensures r == default || exists k :: 0 <= k < |options| && options[k] == Some(r)
  {
    if |options| == 0 then default
    else if options[0].Some? then options[0].value
    else FirstPresent(options[1..], default)
  }

  /** `getComputerName`: the environment as a map and the local host's name,
      None when its lookup fails. */
  function GetComputerName(env: map<string, string>, localHost: Option<string>): (r: string)
    ensures "COMPUTERNAME" in env ==> r == env["COMPUTERNAME"]
    ensures r in env.Values || localHost == Some(r) || r == "Unknown"
  {
    if "COMPUTERNAME" in env then env["COMPUTERNAME"]
    else if "HOSTNAME" in env then env["HOSTNAME"]
    else match localHost
      case Some(name) => name
      case None => "Unknown"
  }

  /** The name is the first present of COMPUTERNAME, HOSTNAME and the local
      host's name, and "Unknown" when none is. */
  lemma ComputerNameOrder(env: map<string, string>, localHost: Option<string>)
    ensures GetComputerName(env, localHost) ==
            FirstPresent([Lookup(env, "COMPUTERNAME"), Lookup(env, "HOSTNAME"), localHost], "Unknown")
  {
    var options := [Lookup(env, "COMPUTERNAME"), Lookup(env, "HOSTNAME"), localHost];
    assert options[1..] == [Lookup(env, "HOSTNAME"), localHost];
    assert options[1..][1..] == [localHost];
    assert FirstPresent([localHost], "Unknown") == if localHost.Some? then localHost.value else "Unknown" by {
      assert [localHost][1..] == [];
    }
  }

  /* ---------------------------------------------------------------------- */
  /* Description files (`setupExperiment`)                                   */
  /* ---------------------------------------------------------------------- */

  /** The files `setupExperiment` writes, in order, and the error that stops
      it, if any. */
  datatype Setup = Setup(files: seq<string>, failure: Option<Error>)

  const BuildInfoFile: string := "build-info.txt"
  const EnvironmentInfoFile: string := "environment-info.txt"

  /** Both switches default to true; a value that is not a Boolean fails the
      cast at the moment it is read, after the files before it are written. */
  function SetupExperiment(config: YamlMap): (r: Setup)
    ensures BuildInfoFile in r.files <==> GetBool(config, "printBuildInfo", true) == Ok(true)
    ensures EnvironmentInfoFile in r.files <==>
              GetBool(config, "printBuildInfo", true).Ok? && GetBool(config, "printEnvironmentInfo", true) == Ok(true)
    ensures r.failure.None? <==>
              GetBool(config, "printBuildInfo", true).Ok? && GetBool(config, "printEnvironmentInfo", true).Ok?
  {
    match GetBool(config, "printBuildInfo", true)
    case Err(e) => Setup([], Some(e))
    case Ok(build) =>
      var first := if build then [BuildInfoFile] else [];
      match GetBool(config, "printEnvironmentInfo", true)
      case Err(e) => Setup(first, Some(e))
      case Ok(env) => Setup(first + (if env then [EnvironmentInfoFile] else []), None)
  }

  /** An empty configuration writes both files. */
  lemma SetupDefaults()
    ensures SetupExperiment(map[]) == Setup([BuildInfoFile, EnvironmentInfoFile], None)
  {
  }
}
