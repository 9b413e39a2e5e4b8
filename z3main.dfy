/** The result printers of the SMT back end and the translation of SMT-LIB
    parameter formulas into R expressions. */
module Z3Main {
  import opened Base
  import opened Strings
  import opened ResultTables

  /* ---------------------------------------------------------------------- */
  /* Result printers                                                         */
  /* ---------------------------------------------------------------------- */

  /** `printZ3Results`: the formulas in the iteration order of the result map,
      each with the (state, parameter set) entries of its state map. */
  method PrintZ3Results<S(==, !new), P(==, !new)>(result: seq<(string, seq<(S, P)>)>) returns (r: ResultSet<S, P>)
    ensures r == Tabulate(result)
  {
    var states: seq<S>, stateIndex: map<S, int>, params: seq<P>, paramIndex: map<P, int> := [], map[], [], map[];
    var rows: seq<Row> := [];
    for i := 0 to |result|
      invariant states == Distinct(Firsts(AllEntries(result[..i])))
      invariant params == Distinct(Seconds(AllEntries(result[..i])))
      invariant Indexes(states, stateIndex) && Indexes(params, paramIndex)
      invariant rows == Rows(states, params, result[..i])
    {
      var (f, entries) := result[i];
      var rMap;
      RowsStep(result, i);
      states, stateIndex, params, paramIndex, rMap := HashEntries(states, stateIndex, params, paramIndex, entries);
      rows := rows + [Row(f, rMap)];
    }
    assert result[..|result|] == result;
    r := ResultSet(states, params, rows);
  }

  /** `printSMTResult`: every formula's result is a list of partition state
      maps, read in list order. */
  method PrintSmtResult<S(==, !new), P(==, !new)>(result: seq<(string, seq<seq<(S, P)>>)>) returns (r: ResultSet<S, P>)
    ensures r == Tabulate(Flatten(result))
  {
    ghost var flat := Flatten(result);
    var states: seq<S>, stateIndex: map<S, int>, params: seq<P>, paramIndex: map<P, int> := [], map[], [], map[];
    var rows: seq<Row> := [];
    for i := 0 to |result|
      invariant states == Distinct(Firsts(AllEntries(flat[..i])))
      invariant params == Distinct(Seconds(AllEntries(flat[..i])))
      invariant Indexes(states, stateIndex) && Indexes(params, paramIndex)
      invariant rows == Rows(states, params, flat[..i])
    {
      var (f, parts) := result[i];
      var rMap;
      RowsStep(flat, i);
      states, stateIndex, params, paramIndex, rMap := HashPartitions(states, stateIndex, params, paramIndex, parts);
      rows := rows + [Row(f, rMap)];
    }
    assert flat[..|result|] == flat;
    r := ResultSet(states, params, rows);
  }

  /* ---------------------------------------------------------------------- */
  /* SMT-LIB formulas as R expressions (`SMT.toR`)                           */
  /* ---------------------------------------------------------------------- */

  /** A parsed SMT-LIB formula: an atom or an application. */
  datatype Smt = Terminal(data: string) | Expression(funName: string, funArgs: seq<Smt>)

  /** The functions translated as an infix chain over all their arguments. */
  const Variadic: set<string> := {"and", "or", "+", "-", "*", "/"}

  /** The comparisons, translated over their first two arguments. */
  const Comparisons: set<string> := {">", ">=", "<", "<="}

  /** The R operator that joins the arguments of a variadic function. */
  function Separator(funName: string): (sep: string)
    requires funName in Variadic
    ensures '(' !in sep && ')' !in sep
  {
    if funName == "and" then " & "
    else if funName == "or" then " | "
    else " " + funName + " "
  }

  /** An atom: the Boolean literals first, then parameter names, which R
      reads from the `ip` frame; any other atom is copied. */
  function TerminalToR(data: string, paramNames: seq<string>): string
  {
    if data == "true" then "TRUE"
    else if data == "false" then "FALSE"
    else if data in paramNames then "ip$" + data
    else data
  }

  /** `SMT.toR`. An unsupported function is an error, and so is a missing
      argument of a comparison or of `not`; the arguments are translated left
      to right and the first error is the result. */
  function ToR(t: Smt, paramNames: seq<string>): (r: Result<string>)
    ensures r.Err? ==> r.error == MissingArgument || r.error.UnsupportedFormula?
    decreases t
  {
    match t
    case Terminal(data) => Ok(TerminalToR(data, paramNames))
    case Expression(f, args) =>
      if f in Variadic then
        var rs :- ToRAll(args, paramNames);
        Ok("(" + Join(Separator(f), rs) + ")")
      else if f in Comparisons || f == "not" then
        if |args| == 0 then Err(MissingArgument)
        else
          var a :- ToR(args[0], paramNames);
          if f == "not" then Ok("(!" + a + ")")
          else if |args| < 2 then Err(MissingArgument)
          else
            var b :- ToR(args[1], paramNames);
            Ok("(" + a + " " + f + " " + b + ")")
      else Err(UnsupportedFormula(f))
  }

  /** `funArgs.map { it.toR(model) }`. */
  function ToRAll(args: seq<Smt>, paramNames: seq<string>): (r: Result<seq<string>>)
    ensures r.Err? ==> r.error == MissingArgument || r.error.UnsupportedFormula?
    ensures r.Ok? ==> |r.value| == |args|
    decreases args
  {
    if |args| == 0 then Ok([])
    else
      var a :- ToR(args[0], paramNames);
      var rest :- ToRAll(args[1..], paramNames);
      Ok([a] + rest)
  }

  /** The formulas the translation accepts, stated independently of it: every
      function is supported and has the arguments it reads. */
  predicate Translatable(t: Smt)
    decreases t
  {
    match t
    case Terminal(_) => true
    case Expression(f, args) =>
      (f in Variadic && forall a | a in args :: Translatable(a)) ||
      (f in Comparisons && |args| >= 2 && Translatable(args[0]) && Translatable(args[1])) ||
      (f == "not" && |args| >= 1 && Translatable(args[0]))
  }

  /** The translation succeeds exactly on the translatable formulas. */
  lemma {:induction false} ToRSucceeds(t: Smt, paramNames: seq<string>)
    ensures ToR(t, paramNames).Ok? <==> Translatable(t)
    decreases t
  {
    match t
    case Terminal(_) =>
    case Expression(f, args) =>
      if f in Variadic {
        ToRAllSucceeds(args, paramNames);
      } else if f in Comparisons || f == "not" {
        if |args| >= 1 {
          ToRSucceeds(args[0], paramNames);
        }
        if |args| >= 2 {
          ToRSucceeds(args[1], paramNames);
        }
      }
  }

  lemma {:induction false} ToRAllSucceeds(args: seq<Smt>, paramNames: seq<string>)
    ensures ToRAll(args, paramNames).Ok? <==> forall a | a in args :: Translatable(a)
    decreases args
  {
    if |args| > 0 {
      ToRSucceeds(args[0], paramNames);
      ToRAllSucceeds(args[1..], paramNames);
      assert args == [args[0]] + args[1..];
    }
  }

  /** Each argument is translated on its own: the list of translations holds,
      at every position, the translation of the argument there. */
  lemma {:induction false} ToRAllPointwise(args: seq<Smt>, paramNames: seq<string>, k: int)
    requires ToRAll(args, paramNames).Ok? && 0 <= k < |args|
    ensures ToR(args[k], paramNames).Ok? && ToRAll(args, paramNames).value[k] == ToR(args[k], paramNames).value
    decreases args
  {
    if k > 0 {
      ToRAllPointwise(args[1..], paramNames, k - 1);
    }
  }

  /** Comparisons and `not` read only the arguments they need: the ones after
      them never change the result, not even when they are not translatable. */
  lemma ExtraArgumentsIgnored(f: string, args: seq<Smt>, extra: seq<Smt>, paramNames: seq<string>)
    requires (f in Comparisons && |args| == 2) || (f == "not" && |args| == 1)
    ensures ToR(Expression(f, args + extra), paramNames) == ToR(Expression(f, args), paramNames)
  {
    assert (args + extra)[0] == args[0];
    if |args| == 2 {
      assert (args + extra)[1] == args[1];
    }
  }

  /** Every atom is balanced in parentheses. */
  predicate AtomsBalanced(t: Smt)
    decreases t
  {
    match t
    case Terminal(data) => Count(data, '(') == Count(data, ')')
    case Expression(_, args) => forall a | a in args :: AtomsBalanced(a)
  }

  lemma {:induction false} JoinBalanced(sep: string, parts: seq<string>)
    requires '(' !in sep && ')' !in sep
    requires forall k | 0 <= k < |parts| :: Count(parts[k], '(') == Count(parts[k], ')')
    ensures Count(Join(sep, parts), '(') == Count(Join(sep, parts), ')')
    decreases |parts|
  {
    if |parts| > 1 {
      JoinBalanced(sep, parts[1..]);
      CountAppend(parts[0] + sep, Join(sep, parts[1..]), '(');
      CountAppend(parts[0] + sep, Join(sep, parts[1..]), ')');
      CountAppend(parts[0], sep, '(');
      CountAppend(parts[0], sep, ')');
      CountZero(sep, '(');
      CountZero(sep, ')');
    }
  }

  /** The R expression opens as many parentheses as it closes, when the atoms
      of the formula do. */
  lemma {:induction false} ToRBalanced(t: Smt, paramNames: seq<string>)
    requires AtomsBalanced(t) && ToR(t, paramNames).Ok?
    ensures Count(ToR(t, paramNames).value, '(') == Count(ToR(t, paramNames).value, ')')
    decreases t
  {
    match t
    case Terminal(data) =>
      TerminalBalanced(data, paramNames);
    case Expression(f, args) =>
      if f in Variadic {
        var rs := ToRAll(args, paramNames).value;
        forall k | 0 <= k < |rs|
          ensures Count(rs[k], '(') == Count(rs[k], ')')
        {
          ToRAllPointwise(args, paramNames, k);
          assert args[k] in args;
          ToRBalanced(args[k], paramNames);
        }
        ChainBalanced(Separator(f), rs);
      } else {
        assert args[0] in args;
        ToRBalanced(args[0], paramNames);
        var a := ToR(args[0], paramNames).value;
        if f == "not" {
          NegationBalanced(a);
        } else {
          assert args[1] in args;
          ToRBalanced(args[1], paramNames);
          ComparisonBalanced(a, f, ToR(args[1], paramNames).value);
        }
      }
  }

  lemma TerminalBalanced(data: string, paramNames: seq<string>)
    requires Count(data, '(') == Count(data, ')')
    ensures Count(TerminalToR(data, paramNames), '(') == Count(TerminalToR(data, paramNames), ')')
  {
    var r := TerminalToR(data, paramNames);
    if r == "TRUE" || r == "FALSE" {
      CountZero(r, '(');
      CountZero(r, ')');
    } else if r != data {
      CountAppend("ip$", data, '(');
      CountAppend("ip$", data, ')');
      CountZero("ip$", '(');
      CountZero("ip$", ')');
    }
  }

  lemma ChainBalanced(sep: string, rs: seq<string>)
    requires '(' !in sep && ')' !in sep
    requires forall k | 0 <= k < |rs| :: Count(rs[k], '(') == Count(rs[k], ')')
    ensures Count("(" + Join(sep, rs) + ")", '(') == Count("(" + Join(sep, rs) + ")", ')')
  {
    JoinBalanced(sep, rs);
    Wrapped(Join(sep, rs));
  }

  lemma NegationBalanced(a: string)
    requires Count(a, '(') == Count(a, ')')
    ensures Count("(!" + a + ")", '(') == Count("(!" + a + ")", ')')
  {
    assert "(!" + a + ")" == "(" + ("!" + a) + ")";
    Wrapped("!" + a);
    CountAppend("!", a, '(');
    CountAppend("!", a, ')');
  }

  lemma ComparisonBalanced(a: string, f: string, b: string)
    requires f in Comparisons
    requires Count(a, '(') == Count(a, ')') && Count(b, '(') == Count(b, ')')
    ensures Count("(" + a + " " + f + " " + b + ")", '(') == Count("(" + a + " " + f + " " + b + ")", ')')
  {
    var mid := " " + f + " ";
    assert "(" + a + " " + f + " " + b + ")" == "(" + (a + mid + b) + ")";
    Wrapped(a + mid + b);
    CountAppend(a + mid, b, '(');
    CountAppend(a + mid, b, ')');
    CountAppend(a, mid, '(');
    CountAppend(a, mid, ')');
    assert '(' !in mid && ')' !in mid;
    CountZero(mid, '(');
    CountZero(mid, ')');
  }

  /** Wrapping in one pair of parentheses keeps the balance. */
  lemma Wrapped(s: string)
    ensures Count("(" + s + ")", '(') == Count(s, '(') + 1
    ensures Count("(" + s + ")", ')') == Count(s, ')') + 1
  {
    CountAppend("(" + s, ")", '(');
    CountAppend("(" + s, ")", ')');
    CountAppend("(", s, '(');
    CountAppend("(", s, ')');
  }
}
