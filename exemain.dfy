/** The command-line checker of the `exe` package: the choice between the
    rectangular and the SMT parameter encoding, and its two result printers,
    which look values up with `indexOf`. */
module ExeMain {
  import opened ResultTables

  /* ---------------------------------------------------------------------- */
  /* Choice of the parameter encoding                                        */
  /* ---------------------------------------------------------------------- */

  /** One summand of a variable's equation; a negative `paramIndex` means the
      summand has no parameter. The other parts of a summand play no role here. */
  datatype Summand = Summand(paramIndex: int)

  datatype Variable = Variable(name: string, equation: seq<Summand>)

  /** The parameters a variable's equation mentions. */
  function ParamIndices(equation: seq<Summand>): set<int>
  {
    set k | 0 <= k < |equation| && equation[k].paramIndex >= 0 :: equation[k].paramIndex
  }

  /** `model.variables.all { it.equation.map { it.paramIndex }.filter { it >= 0 }.toSet().size <= 1 }`. */
  function IsRectangular(variables: seq<Variable>): (r: bool)
    ensures !r ==> exists v :: v in variables && |ParamIndices(v.equation)| >= 2
  {
    forall v | v in variables :: |ParamIndices(v.equation)| <= 1
  }

  lemma TwoDistinct(s: set<int>, a: int, b: int)
    requires a in s && b in s && a != b
    ensures |s| >= 2
  {
    var rest := s - {a};
    assert s == rest + {a};
    assert b in rest;
  }

  lemma WithinSingleton(s: set<int>, a: int)
    requires forall x | x in s :: x == a
    ensures |s| <= 1
  {
    if a in s {
      assert forall x :: x in s <==> x in {a};
      assert s == {a};
    } else {
      assert forall x :: x !in s;
      assert s == {};
    }
  }

  /** One equation mentions at most one parameter iff any two of its summands
      that carry a parameter carry the same one. */
  lemma EquationRectangular(equation: seq<Summand>)
    ensures |ParamIndices(equation)| <= 1 <==>
            forall k, l | 0 <= k < |equation| && 0 <= l < |equation| &&
                          equation[k].paramIndex >= 0 && equation[l].paramIndex >= 0 ::
              equation[k].paramIndex == equation[l].paramIndex
  {
    var s := ParamIndices(equation);
    if exists k, l :: 0 <= k < |equation| && 0 <= l < |equation| && equation[k].paramIndex >= 0 &&
                      equation[l].paramIndex >= 0 && equation[k].paramIndex != equation[l].paramIndex {
      var k, l :| 0 <= k < |equation| && 0 <= l < |equation| && equation[k].paramIndex >= 0 &&
                  equation[l].paramIndex >= 0 && equation[k].paramIndex != equation[l].paramIndex;
      TwoDistinct(s, equation[k].paramIndex, equation[l].paramIndex);
    } else if exists k :: 0 <= k < |equation| && equation[k].paramIndex >= 0 {
      var k :| 0 <= k < |equation| && equation[k].paramIndex >= 0;
      WithinSingleton(s, equation[k].paramIndex);
    } else {
      assert s == {};
    }
  }

  /** The rectangular encoding is chosen exactly when no equation mentions two
      different parameters. */
  lemma RectangularIff(variables: seq<Variable>)
    ensures IsRectangular(variables) <==>
            forall v, k, l | v in variables && 0 <= k < |v.equation| && 0 <= l < |v.equation| &&
                             v.equation[k].paramIndex >= 0 && v.equation[l].paramIndex >= 0 ::
              v.equation[k].paramIndex == v.equation[l].paramIndex
  {
    forall v | v in variables
      ensures |ParamIndices(v.equation)| <= 1 <==>
              forall k, l | 0 <= k < |v.equation| && 0 <= l < |v.equation| &&
                            v.equation[k].paramIndex >= 0 && v.equation[l].paramIndex >= 0 ::
                v.equation[k].paramIndex == v.equation[l].paramIndex
    {
      EquationRectangular(v.equation);
    }
  }

  /* ---------------------------------------------------------------------- */
  /* Result printers                                                         */
  /* ---------------------------------------------------------------------- */

  /** Every entry's parameter set replaced by its normal form. */
  function NormaliseAll<S, P>(result: seq<(string, seq<(S, P)>)>, norm: P -> P): (r: seq<(string, seq<(S, P)>)>)
    ensures |r| == |result|
  {
    seq(|result|, i requires 0 <= i < |result| => (result[i].0, Normalised(result[i].1, norm)))
  }

  /** `printSMTResults`: the parameter sets are interned in the normal form
      `norm` gives them (`normalize().purify()`), not as the checker returns them. */
  method PrintSmtResults<S(==), P(==)>(result: seq<(string, seq<(S, P)>)>, norm: P -> P) returns (r: ResultSet<S, P>)
    ensures r == Tabulate(NormaliseAll(result, norm))
  {
    ghost var input := NormaliseAll(result, norm);
    var states: seq<S>, params: seq<P> := [], [];
    var rows: seq<Row> := [];
    for i := 0 to |result|
      invariant states == Distinct(Firsts(AllEntries(input[..i])))
      invariant params == Distinct(Seconds(AllEntries(input[..i])))
      invariant rows == Rows(states, params, input[..i])
    {
      var (f, entries) := result[i];
      var rMap;
      RowsStep(input, i);
      states, params, rMap := ScanEntries(states, params, entries, norm);
      rows := rows + [Row(f, rMap)];
    }
    assert input[..|result|] == input;
    r := ResultSet(states, params, rows);
  }

  /** `printRectResults`: the same loop, with the parameter sets taken as they are. */
  method PrintRectResults<S(==), P(==)>(result: seq<(string, seq<(S, P)>)>) returns (r: ResultSet<S, P>)
    ensures r == Tabulate(result)
  {
    var states: seq<S>, params: seq<P> := [], [];
    var rows: seq<Row> := [];
    var same := (p: P) => p;
    for i := 0 to |result|
      invariant states == Distinct(Firsts(AllEntries(result[..i])))
      invariant params == Distinct(Seconds(AllEntries(result[..i])))
      invariant rows == Rows(states, params, result[..i])
    {
      var (f, entries) := result[i];
      var rMap;
      RowsStep(result, i);
      assert Normalised(entries, same) == entries;
      states, params, rMap := ScanEntries(states, params, entries, same);
      rows := rows + [Row(f, rMap)];
    }
    assert result[..|result|] == result;
    r := ResultSet(states, params, rows);
  }

  /** Normalising twice with an idempotent normal form changes nothing: the
      tables of an already normalised result are those of the result. */
  lemma NormaliseIdempotent<S, P>(result: seq<(string, seq<(S, P)>)>, norm: P -> P)
    requires forall p :: norm(norm(p)) == norm(p)
    ensures NormaliseAll(NormaliseAll(result, norm), norm) == NormaliseAll(result, norm)
  {
    var once := NormaliseAll(result, norm);
    forall i | 0 <= i < |result|
      ensures NormaliseAll(once, norm)[i] == once[i]
    {
      forall k | 0 <= k < |once[i].1|
        ensures Normalised(once[i].1, norm)[k] == once[i].1[k]
      {
        assert once[i].1[k] == (result[i].1[k].0, norm(result[i].1[k].1));
      }
      assert Normalised(once[i].1, norm) == once[i].1;
    }
  }

  /** Two entries whose parameter sets have the same normal form share one
      parameter index. */
  lemma NormalFormsShareIndex<S, P>(result: seq<(string, seq<(S, P)>)>, norm: P -> P,
                                    i: int, k: int, i2: int, k2: int)
    requires 0 <= i < |result| && 0 <= k < |result[i].1|
    requires 0 <= i2 < |result| && 0 <= k2 < |result[i2].1|
    ensures var r := Tabulate(NormaliseAll(result, norm));
            r.results[i].pairs[k].1 == r.results[i2].pairs[k2].1 <==>
            norm(result[i].1[k].1) == norm(result[i2].1[k2].1)
  {
    TabulateSharesIndices(NormaliseAll(result, norm), i, k, i2, k2);
  }
}
