/** The rectangular-parameter front end: its JSON result printer. */
module RectMain {
  import opened ResultTables

  /** `printJsonRectResults`: every formula's result is a list of partition
      state maps, read in list order; `render` is what the JSON shows of a
      parameter set (its rectangles as intervals). */
  method PrintJsonRectResults<S(==, !new), P(==, !new), V>(result: seq<(string, seq<seq<(S, P)>>)>, render: P -> V)
    returns (r: ResultSet<S, P>, parameterValues: seq<V>)
    ensures r == Tabulate(Flatten(result))
    ensures |parameterValues| == |r.params|
    ensures forall j | 0 <= j < |parameterValues| :: parameterValues[j] == render(r.params[j])
  {
    ghost var flat := Flatten(result);
    var stateIndexMapping: map<S, int>, states: seq<S> := map[], [];
    var paramsIndexMapping: map<P, int>, params: seq<P> := map[], [];
    var rows: seq<Row> := [];
    for i := 0 to |result|
      invariant states == Distinct(Firsts(AllEntries(flat[..i])))
      invariant params == Distinct(Seconds(AllEntries(flat[..i])))
      invariant Indexes(states, stateIndexMapping) && Indexes(params, paramsIndexMapping)
      invariant rows == Rows(states, params, flat[..i])
    {
      var (f, parts) := result[i];
      var rMap;
      RowsStep(flat, i);
      states, stateIndexMapping, params, paramsIndexMapping, rMap :=
        HashPartitions(states, stateIndexMapping, params, paramsIndexMapping, parts);
      rows := rows + [Row(f, rMap)];
    }
    assert flat[..|result|] == flat;
    r := ResultSet(states, params, rows);
    parameterValues := seq(|params|, j requires 0 <= j < |params| => render(params[j]));
  }

  /** Each parameter value describes a different parameter set of the result. */
  lemma ParameterValuesDistinctSets<S, P, V>(result: seq<(string, seq<seq<(S, P)>>)>, j: int, j2: int)
    requires 0 <= j < j2 < |Tabulate(Flatten(result)).params|
    ensures Tabulate(Flatten(result)).params[j] != Tabulate(Flatten(result)).params[j2]
  {
    TabulateNoDuplicates(Flatten(result));
  }
}
