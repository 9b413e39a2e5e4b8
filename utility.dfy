/** Small helpers of the launcher: log-level names, file-name extensions,
    nanosecond conversion and the shell command sent to a remote worker. */
module Utility {
  import opened Base
  import opened Strings

  /** The nine levels of `java.util.logging.Level`. */
  datatype Level = Off | Severe | Warning | Info | Config | Fine | Finer | Finest | All

  /** `Level.toString()`, the level's upper-case name. */
  function LevelName(l: Level): string
  {
    match l
    case Off => "OFF"
    case Severe => "SEVERE"
    case Warning => "WARNING"
    case Info => "INFO"
    case Config => "CONFIG"
    case Fine => "FINE"
    case Finer => "FINER"
    case Finest => "FINEST"
    case All => "ALL"
  }

  /** `String.toLogLevel()`: the lower-case names the configuration accepts,
      with both "error" and "severe" standing for SEVERE. */
  function ToLogLevel(s: string): (r: Result<Level>)
    ensures r.Err? ==> r.error == UnknownLogLevel(s)
    ensures r.Ok? ==> r.value != Config
    ensures r.Ok? <==> s in {"off", "error", "severe", "warning", "info", "fine", "finer", "finest", "all"}
  {
    if s == "off" then Ok(Off)
    else if s == "error" || s == "severe" then Ok(Severe)
    else if s == "warning" then Ok(Warning)
    else if s == "info" then Ok(Info)
    else if s == "fine" then Ok(Fine)
    else if s == "finer" then Ok(Finer)
    else if s == "finest" then Ok(Finest)
    else if s == "all" then Ok(All)
    else Err(UnknownLogLevel(s))
  }

  /** The argument the dispatcher passes to a worker for its console level:
      `consoleLogLevel.toString().toLowerCase()`, lowered in the root locale. */
  function WorkerLevelArg(l: Level): string
  {
    Lower(LevelName(l))
  }

  /** A worker parses the level it is sent back to the same level, for every
      level except CONFIG, which `toLogLevel` does not know. */
  lemma LevelRoundTrip(l: Level)
    ensures l != Config ==> ToLogLevel(WorkerLevelArg(l)) == Ok(l)
    ensures l == Config ==> ToLogLevel(WorkerLevelArg(l)).Err?
  {
    var s := WorkerLevelArg(l);
    match l
    case Off => assert s == "off";
    case Severe => assert s == "severe";
    case Warning => assert s == "warning";
    case Info => assert s == "info";
    case Config => assert s == "config";
    case Fine => assert s == "fine";
    case Finer => assert s == "finer";
    case Finest => assert s == "finest";
    case All => assert s == "all";
  }

  /** Every level that came out of `toLogLevel` survives the trip to a worker. */
  lemma ParsedLevelRoundTrip(s: string)
    requires ToLogLevel(s).Ok?
    ensures ToLogLevel(WorkerLevelArg(ToLogLevel(s).value)) == ToLogLevel(s)
  {
    LevelRoundTrip(ToLogLevel(s).value);
  }

  /** `toLowerCase()` under the JVM's default locale. In a Turkic locale (tr, az)
      the capital I lowers to the dotless small letter U+0131, not to 'i'. */
  function LowerInLocale(s: string, turkic: bool): (r: string)
    ensures |r| == |s|
  {
    seq(|s|, i requires 0 <= i < |s| =>
      if turkic && s[i] == 'I' then 'ı' else LowerChar(s[i]))
  }

  /** The worker argument as the dispatcher writes it, with the default locale. */
  function WorkerLevelArgAsWritten(l: Level, turkic: bool): (r: string)
    ensures |r| == |LevelName(l)|
    ensures forall i :: 0 <= i < |r| ==> !('A' <= r[i] <= 'Z')
  {
    LowerInLocale(LevelName(l), turkic)
  }

  /** In the root locale the source's lowering agrees with `WorkerLevelArg`. */
  lemma AsWrittenRootLocale(l: Level)
    ensures WorkerLevelArgAsWritten(l, false) == WorkerLevelArg(l)
  {
  }

  /** In a Turkic locale a worker cannot parse the level INFO it is sent. */
  lemma TurkicLocaleBreaksInfo()
    ensures ToLogLevel(WorkerLevelArgAsWritten(Info, true)).Err?
  {
    var a := WorkerLevelArgAsWritten(Info, true);
    assert a[0] == 'ı';
    assert a != "info" && a != "fine" && a != "finer" && a != "finest";
  }

  /** Last index of `c` in `s`, or -1 (`lastIndexOf`). */
  function LastIndexOf(s: string, c: char): (r: int)
    ensures -1 <= r < |s|
    ensures r < 0 <==> c !in s
    ensures r >= 0 ==> s[r] == c && c !in s[r + 1..]
  {
    if |s| == 0 then -1
    else if s[|s| - 1] == c then |s| - 1
    else
      var r := LastIndexOf(s[..|s| - 1], c);
      assert r >= 0 ==> s[r + 1..] == s[..|s| - 1][r + 1..] + [s[|s| - 1]];
      r
  }

  /** `String.trimExtension()`: the text before the last '.'; a name without
      '.' makes `substring(0, -1)` throw. */
  function TrimExtension(s: string): (r: Result<string>)
    ensures r.Ok? <==> '.' in s
    ensures r.Err? ==> r.error == NoExtension(s)
    ensures r.Ok? ==> |r.value| < |s| && s[..|r.value|] == r.value
    ensures r.Ok? ==> s[|r.value|] == '.' && '.' !in s[|r.value| + 1..]
  {
    var i := LastIndexOf(s, '.');
    if i < 0 then Err(NoExtension(s)) else Ok(s[..i])
  }

  /** `Long.toMillis()`: nanoseconds to milliseconds, dividing with truncation
      toward zero as the JVM does. */
  function ToMillis(nanos: int): (r: int)
    ensures nanos >= 0 ==> 0 <= r && r * 1_000_000 <= nanos < (r + 1) * 1_000_000
    ensures nanos < 0 ==> r <= 0 && (r - 1) * 1_000_000 < nanos <= r * 1_000_000
  {
    if nanos >= 0 then nanos / 1_000_000 else -((-nanos) / 1_000_000)
  }

  /** `getJavaLocation()`: the `java` executable under `java.home`. */
  function JavaLocation(javaHome: string, osName: string): (r: string)
    ensures |osName| >= 3 && osName[..3] == "Win" ==> r == javaHome + "\\bin\\java.exe"
    ensures !(|osName| >= 3 && osName[..3] == "Win") ==> r == javaHome + "/bin/java"
  {
    var windows := |osName| >= 3 && osName[..3] == "Win";
    var sep := if windows then "\\" else "/";
    javaHome + sep + "bin" + sep + (if windows then "java.exe" else "java")
  }

  /* The remote command of `guardedRemoteProcess`. */

  function Quote(a: string): string { "\"" + a + "\"" }

  /** The argument vector wrapped in double quotes, without escaping, and
      joined by single spaces. */
  function QuoteArgs(args: seq<string>): string
  {
    Join(" ", seq(|args|, i requires 0 <= i < |args| => Quote(args[i])))
  }

  /** One " export V; " segment per environment entry, joined by a space;
      nothing when no environment is given. */
  function ExportSegment(vars: Option<seq<string>>): string
  {
    match vars
    case None => ""
    case Some(vs) => Join(" ", seq(|vs|, i requires 0 <= i < |vs| => " export " + vs[i] + "; "))
  }

  /** The payload handed to `ssh host <payload>`. */
  function RemoteCommand(userDir: string, vars: Option<seq<string>>, args: seq<string>): (r: string)
    ensures |r| >= |userDir| + 5 && r[..|userDir| + 5] == "cd " + userDir + "; "
    ensures |r| >= |QuoteArgs(args)| && r[|r| - |QuoteArgs(args)|..] == QuoteArgs(args)
  {
    "cd " + userDir + "; " + ExportSegment(vars) + QuoteArgs(args)
  }

  /** First index of `c` in `s`, or -1. */
  function IndexOfChar(s: string, c: char): (r: int)
    ensures -1 <= r < |s|
    ensures r < 0 <==> c !in s
    ensures r >= 0 ==> s[r] == c && c !in s[..r]
  {
    if |s| == 0 then -1
    else if s[0] == c then 0
    else
      var r := IndexOfChar(s[1..], c);
      if r < 0 then -1
      else
        assert s[..r + 1] == [s[0]] + s[1..][..r];
        r + 1
  }

  /** Reads back a non-empty list of quoted arguments separated by single spaces. */
  function UnquoteNonEmpty(s: string): Option<seq<string>>
    decreases |s|
  {
    if |s| < 2 || s[0] != '"' then None
    else
      var k := IndexOfChar(s[1..], '"');
      if k < 0 then None
      else
        var arg := s[1..k + 1];
        var rest := s[k + 2..];
        if |rest| == 0 then Some([arg])
        else if rest[0] != ' ' then None
        else
          match UnquoteNonEmpty(rest[1..])
          case None => None
          case Some(more) => Some([arg] + more)
  }

  /** The inverse of `QuoteArgs` on argument lists without a double quote. */
  function UnquoteArgs(s: string): Option<seq<string>>
  {
    if |s| == 0 then Some([]) else UnquoteNonEmpty(s)
  }

  predicate QuoteFree(args: seq<string>)
  {
    forall i :: 0 <= i < |args| ==> '"' !in args[i]
  }

  /** The quoted list is the first argument quoted, then a space and the rest. */
  lemma QuoteArgsCons(args: seq<string>)
    requires |args| >= 1
    ensures QuoteArgs(args) == Quote(args[0]) + (if |args| == 1 then "" else " " + QuoteArgs(args[1..]))
  {
    if |args| > 1 {
      var quoted := seq(|args|, i requires 0 <= i < |args| => Quote(args[i]));
      assert quoted[1..] == seq(|args[1..]|, i requires 0 <= i < |args[1..]| => Quote(args[1..][i]));
    }
  }

  /** Reading one quoted argument off the front. */
  lemma UnquoteFirst(a: string, tail: string)
    requires '"' !in a
    ensures UnquoteNonEmpty("\"" + a + "\"" + tail) ==
            if |tail| == 0 then Some([a])
            else if tail[0] != ' ' then None
            else match UnquoteNonEmpty(tail[1..])
                 case None => None
                 case Some(more) => Some([a] + more)
  {
    var s := "\"" + a + "\"" + tail;
    assert s[1..] == a + "\"" + tail;
    assert s[1..][|a|] == '"';
    assert s[1..][..|a|] == a;
    assert IndexOfChar(s[1..], '"') == |a|;
    assert s[1..|a| + 1] == a;
    assert s[|a| + 2..] == tail;
  }

  lemma {:induction false} UnquoteQuoteNonEmpty(args: seq<string>)
    requires |args| >= 1 && QuoteFree(args)
    ensures UnquoteNonEmpty(QuoteArgs(args)) == Some(args)
  {
    var a := args[0];
    var tail := if |args| == 1 then "" else " " + QuoteArgs(args[1..]);
    QuoteArgsCons(args);
    UnquoteFirst(a, tail);
    if |args| == 1 {
      assert args == [a];
    } else {
      assert QuoteFree(args[1..]);
      UnquoteQuoteNonEmpty(args[1..]);
      assert tail[1..] == QuoteArgs(args[1..]);
      assert [a] + args[1..] == args;
    }
  }

  /** Quoting loses nothing when no argument holds a double quote. */
  lemma UnquoteQuoteArgs(args: seq<string>)
    requires QuoteFree(args)
    ensures UnquoteArgs(QuoteArgs(args)) == Some(args)
  {
    if |args| >= 1 {
      UnquoteQuoteNonEmpty(args);
      assert |QuoteArgs(args)| > 0 by {
        assert QuoteArgs(args)[..|Quote(args[0])|] == Quote(args[0]) by {
          var quoted := seq(|args|, i requires 0 <= i < |args| => Quote(args[i]));
          assert quoted[0] == Quote(args[0]);
        }
      }
    }
  }

  /** Without escaping, one argument holding quotes is read as two arguments. */
  lemma QuotesAreNotEscaped()
    ensures QuoteArgs(["a\" \"b"]) == QuoteArgs(["a", "b"])
  {
    var one := seq(1, i requires 0 <= i < 1 => Quote(["a\" \"b"][i]));
    var two := seq(2, i requires 0 <= i < 2 => Quote(["a", "b"][i]));
    assert one[0] == "\"a\" \"b\"" && one == [one[0]];
    assert two[0] == "\"a\"" && two[1] == "\"b\"" && two == [two[0], two[1]];
    assert two[1..] == ["\"b\""];
    assert Join(" ", two) == "\"a\"" + " " + "\"b\"";
  }

  /** The payload changes into the caller's directory, then sets the environment,
      and ends with the argument vector, which can be read back when it holds no
      double quote. */
  lemma RemoteCommandShape(userDir: string, vars: Option<seq<string>>, args: seq<string>)
    requires QuoteFree(args)
    ensures var c := RemoteCommand(userDir, vars, args);
            var n := |"cd " + userDir + "; " + ExportSegment(vars)|;
            n <= |c| && c[..n] == "cd " + userDir + "; " + ExportSegment(vars) &&
            UnquoteArgs(c[n..]) == Some(args)
  {
    var head := "cd " + userDir + "; " + ExportSegment(vars);
    var c := RemoteCommand(userDir, vars, args);
    assert c == head + QuoteArgs(args);
    assert c[|head|..] == QuoteArgs(args);
    UnquoteQuoteArgs(args);
  }
}
