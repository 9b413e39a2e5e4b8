/** The tables every JSON result printer builds. A printer receives, per
    verified formula, the (state, parameter set) entries of its result; it
    lists every distinct state and every distinct parameter set once, in order
    of first appearance, shared by all formulas, and replaces each entry by the
    pair of their positions in those lists. */
module ResultTables {

  /* ---------------------------------------------------------------------- */
  /* Positions and first appearances                                         */
  /* ---------------------------------------------------------------------- */

  /** `List.indexOf`: the first position holding `x`, or -1. */
  function IndexOf<T(==)>(xs: seq<T>, x: T): (r: int)
    ensures -1 <= r < |xs|
    ensures r < 0 <==> x !in xs
    ensures 0 <= r ==> xs[r] == x && x !in xs[..r]
  {
    if |xs| == 0 then -1
    else if xs[0] == x then 0
    else
      var r := IndexOf(xs[1..], x);
      assert xs[1..] == xs[1..][..|xs| - 1];
      if r < 0 then -1
      else
        assert xs[..r + 1] == [xs[0]] + xs[1..][..r];
        r + 1
  }

  /** A position holding `x` with no earlier one is the position `IndexOf` finds. */
  lemma IndexOfUnique<T>(xs: seq<T>, x: T, r: int)
    requires 0 <= r < |xs| && xs[r] == x && x !in xs[..r]
    ensures IndexOf(xs, x) == r
  {
    var q := IndexOf(xs, x);
    assert forall n :: 0 <= n < r ==> xs[..r][n] == xs[n];
    assert forall n :: 0 <= n < q ==> xs[..q][n] == xs[n];
  }

  /** Appending never moves a value that is already there. */
  lemma IndexOfPrefix<T>(t: seq<T>, s: seq<T>, x: T)
    requires |t| <= |s| && s[..|t|] == t && x in t
    ensures IndexOf(s, x) == IndexOf(t, x)
  {
    var q := IndexOf(t, x);
    assert s[q] == t[q];
    assert s[..q] == t[..q];
    IndexOfUnique(s, x, q);
  }

  predicate NoDuplicates<T(==)>(xs: seq<T>)
  {
    forall i, j :: 0 <= i < j < |xs| ==> xs[i] != xs[j]
  }

  /** In a list without duplicates the value at position i is found at i. */
  lemma IndexOfNoDuplicates<T>(xs: seq<T>, i: int)
    requires NoDuplicates(xs) && 0 <= i < |xs|
    ensures IndexOf(xs, xs[i]) == i
  {
    IndexOfUnique(xs, xs[i], i);
  }

  /** The table `t` after the values of `xs` are added in turn, each only when
      it is not yet there. */
  function Extend<T(==)>(t: seq<T>, xs: seq<T>): seq<T>
    decreases |xs|
  {
    if |xs| == 0 then t
    else
      var d := Extend(t, xs[..|xs| - 1]);
      if xs[|xs| - 1] in d then d else d + [xs[|xs| - 1]]
  }

  /** The distinct values of `xs` in order of first appearance. */
  function Distinct<T(==)>(xs: seq<T>): seq<T>
  {
    Extend([], xs)
  }

  lemma ExtendSnoc<T>(t: seq<T>, xs: seq<T>, x: T)
    ensures Extend(t, xs + [x]) == if x in Extend(t, xs) then Extend(t, xs) else Extend(t, xs) + [x]
  {
    assert (xs + [x])[..|xs|] == xs;
  }

  /** Adding values only ever appends. */
  lemma {:induction false} ExtendPrefix<T>(t: seq<T>, xs: seq<T>)
    ensures |t| <= |Extend(t, xs)| && Extend(t, xs)[..|t|] == t
    decreases |xs|
  {
    if |xs| > 0 {
      ExtendPrefix(t, xs[..|xs| - 1]);
    }
  }

  /** The table afterwards holds exactly the old values and the added ones. */
  lemma {:induction false} ExtendMembers<T>(t: seq<T>, xs: seq<T>, x: T)
    ensures x in Extend(t, xs) <==> x in t || x in xs
    decreases |xs|
  {
    if |xs| > 0 {
      var init := xs[..|xs| - 1];
      ExtendMembers(t, init, x);
      assert xs == init + [xs[|xs| - 1]];
    }
  }

  lemma {:induction false} ExtendNoDuplicates<T>(t: seq<T>, xs: seq<T>)
    requires NoDuplicates(t)
    ensures NoDuplicates(Extend(t, xs))
    decreases |xs|
  {
    if |xs| > 0 {
      ExtendNoDuplicates(t, xs[..|xs| - 1]);
    }
  }

  /** Adding `a` and then `b` is adding `a + b`. */
  lemma {:induction false} ExtendAppend<T>(t: seq<T>, a: seq<T>, b: seq<T>)
    ensures Extend(t, a + b) == Extend(Extend(t, a), b)
    decreases |b|
  {
    if |b| == 0 {
      assert a + b == a;
    } else {
      var init := b[..|b| - 1];
      var x := b[|b| - 1];
      assert b == init + [x];
      assert a + b == (a + init) + [x];
      ExtendAppend(t, a, init);
      ExtendSnoc(t, a + init, x);
      ExtendSnoc(Extend(t, a), init, x);
    }
  }

  /** The distinct values are listed in order of first appearance. */
  lemma {:induction false} DistinctFirstAppearance<T>(xs: seq<T>, a: int, b: int)
    requires 0 <= a < b < |Distinct(xs)|
    ensures 0 <= IndexOf(xs, Distinct(xs)[a]) < IndexOf(xs, Distinct(xs)[b])
    decreases |xs|
  {
    var init := xs[..|xs| - 1];
    var x := xs[|xs| - 1];
    assert xs == init + [x];
    ExtendSnoc([], init, x);
    var d := Distinct(init);
    ExtendPrefix(d, [x]);
    ExtendMembers([], init, d[a]);
    ExtendMembers([], init, Distinct(xs)[b]);
    IndexOfPrefix(init, xs, d[a]);
    if b < |d| {
      DistinctFirstAppearance(init, a, b);
      IndexOfPrefix(init, xs, d[b]);
    } else {
      ExtendMembers([], init, x);
      assert x !in init;
      IndexOfUnique(xs, x, |init|);
    }
  }

  /* ---------------------------------------------------------------------- */
  /* What a printer produces                                                 */
  /* ---------------------------------------------------------------------- */

  /** One formula's result as the JSON lists it: the formula and the
      `[stateIndex, paramIndex]` pairs of its entries. */
  datatype Row = Row(formula: string, pairs: seq<(int, int)>)

  /** The shared tables and the rows of all formulas. */
  datatype ResultSet<S, P> = ResultSet(states: seq<S>, params: seq<P>, results: seq<Row>)

  function Firsts<S, P>(es: seq<(S, P)>): (r: seq<S>)
    ensures |r| == |es|
  {
    seq(|es|, k requires 0 <= k < |es| => es[k].0)
  }

  function Seconds<S, P>(es: seq<(S, P)>): (r: seq<P>)
    ensures |r| == |es|
  {
    seq(|es|, k requires 0 <= k < |es| => es[k].1)
  }

  lemma FirstsAppend<S, P>(a: seq<(S, P)>, b: seq<(S, P)>)
    ensures Firsts(a + b) == Firsts(a) + Firsts(b)
    ensures Seconds(a + b) == Seconds(a) + Seconds(b)
  {
  }

  /** The entries of all formulas, one formula after the other. */
  function AllEntries<S, P>(input: seq<(string, seq<(S, P)>)>): seq<(S, P)>
    decreases |input|
  {
    if |input| == 0 then []
    else AllEntries(input[..|input| - 1]) + input[|input| - 1].1
  }

  lemma AllEntriesStep<S, P>(input: seq<(string, seq<(S, P)>)>, i: int)
    requires 0 <= i < |input|
    ensures AllEntries(input[..i + 1]) == AllEntries(input[..i]) + input[i].1
  {
    assert input[..i + 1][..i] == input[..i];
  }

  /** Every entry of every formula is among all entries. */
  lemma {:induction false} EntryInAll<S, P>(input: seq<(string, seq<(S, P)>)>, i: int, k: int)
    requires 0 <= i < |input| && 0 <= k < |input[i].1|
    ensures input[i].1[k] in AllEntries(input)
    decreases |input|
  {
    var n := |input| - 1;
    assert AllEntries(input) == AllEntries(input[..n]) + input[n].1;
    if i < n {
      EntryInAll(input[..n], i, k);
    } else {
      assert AllEntries(input)[|AllEntries(input[..n])| + k] == input[i].1[k];
    }
  }

  /** An entry among all entries belongs to some formula. */
  lemma {:induction false} AllInSomeEntry<S, P>(input: seq<(string, seq<(S, P)>)>, e: (S, P))
    requires e in AllEntries(input)
    ensures exists i, k :: 0 <= i < |input| && 0 <= k < |input[i].1| && input[i].1[k] == e
    decreases |input|
  {
    var n := |input| - 1;
    var before := AllEntries(input[..n]);
    assert AllEntries(input) == before + input[n].1;
    if e in before {
      AllInSomeEntry(input[..n], e);
      var i, k :| 0 <= i < n && 0 <= k < |input[..n][i].1| && input[..n][i].1[k] == e;
      assert input[i].1[k] == e;
    } else {
      var k :| 0 <= k < |input[n].1| && input[n].1[k] == e;
    }
  }

  /** Each entry replaced by the positions of its state and its parameter set. */
  function Pairs<S(==), P(==)>(st: seq<S>, pa: seq<P>, es: seq<(S, P)>): (r: seq<(int, int)>)
    ensures |r| == |es|
  {
    seq(|es|, k requires 0 <= k < |es| => (IndexOf(st, es[k].0), IndexOf(pa, es[k].1)))
  }

  function Rows<S(==), P(==)>(st: seq<S>, pa: seq<P>, input: seq<(string, seq<(S, P)>)>): (r: seq<Row>)
    ensures |r| == |input|
  {
    seq(|input|, i requires 0 <= i < |input| => Row(input[i].0, Pairs(st, pa, input[i].1)))
  }

  /** The result set a printer builds from its input. */
  function Tabulate<S(==), P(==)>(input: seq<(string, seq<(S, P)>)>): ResultSet<S, P>
  {
    var es := AllEntries(input);
    var st := Distinct(Firsts(es));
    var pa := Distinct(Seconds(es));
    ResultSet(st, pa, Rows(st, pa, input))
  }

  /** Whether every pair of `r` points inside its tables. */
  predicate InRange<S, P>(r: ResultSet<S, P>)
  {
    forall i, k :: 0 <= i < |r.results| && 0 <= k < |r.results[i].pairs| ==>
      0 <= r.results[i].pairs[k].0 < |r.states| && 0 <= r.results[i].pairs[k].1 < |r.params|
  }

  /** Reading a result set back: every pair replaced by the values it names. */
  function Untabulate<S, P>(r: ResultSet<S, P>): (input: seq<(string, seq<(S, P)>)>)
    requires InRange(r)
    ensures |input| == |r.results|
  {
    seq(|r.results|, i requires 0 <= i < |r.results| =>
      (r.results[i].formula,
       seq(|r.results[i].pairs|, k requires 0 <= k < |r.results[i].pairs| =>
         (r.states[r.results[i].pairs[k].0], r.params[r.results[i].pairs[k].1]))))
  }

  /* ---------------------------------------------------------------------- */
  /* Properties of the result set                                            */
  /* ---------------------------------------------------------------------- */

  /** Neither table lists a value twice. */
  lemma TabulateNoDuplicates<S, P>(input: seq<(string, seq<(S, P)>)>)
    ensures NoDuplicates(Tabulate(input).states) && NoDuplicates(Tabulate(input).params)
  {
    var es := AllEntries(input);
    ExtendNoDuplicates([], Firsts(es));
    ExtendNoDuplicates([], Seconds(es));
  }

  /** The tables hold exactly the states and parameter sets of the entries. */
  lemma TabulateValues<S, P>(input: seq<(string, seq<(S, P)>)>, s: S, p: P)
    ensures s in Tabulate(input).states <==> exists e :: e in AllEntries(input) && e.0 == s
    ensures p in Tabulate(input).params <==> exists e :: e in AllEntries(input) && e.1 == p
  {
    var es := AllEntries(input);
    ExtendMembers([], Firsts(es), s);
    ExtendMembers([], Seconds(es), p);
    if s in Firsts(es) {
      var k :| 0 <= k < |es| && Firsts(es)[k] == s;
      assert es[k] in es;
    }
    if p in Seconds(es) {
      var k :| 0 <= k < |es| && Seconds(es)[k] == p;
      assert es[k] in es;
    }
    forall e | e in es
      ensures e.0 in Firsts(es) && e.1 in Seconds(es)
    {
      var k :| 0 <= k < |es| && es[k] == e;
      assert Firsts(es)[k] == e.0 && Seconds(es)[k] == e.1;
    }
  }

  /** One row per formula, in input order; one pair per entry, in entry
      order; each pair names the state and the parameter set of its entry. */
  lemma TabulatePointsBack<S, P>(input: seq<(string, seq<(S, P)>)>, i: int, k: int)
    requires 0 <= i < |input| && 0 <= k < |input[i].1|
    ensures |Tabulate(input).results| == |input|
    ensures Tabulate(input).results[i].formula == input[i].0
    ensures |Tabulate(input).results[i].pairs| == |input[i].1|
    ensures var (si, pj) := Tabulate(input).results[i].pairs[k];
            0 <= si < |Tabulate(input).states| && Tabulate(input).states[si] == input[i].1[k].0 &&
            0 <= pj < |Tabulate(input).params| && Tabulate(input).params[pj] == input[i].1[k].1
  {
    var e := input[i].1[k];
    EntryInAll(input, i, k);
    TabulateValues(input, e.0, e.1);
  }

  /** The pairs point inside the tables, and reading them back gives the input. */
  lemma TabulateRoundTrip<S, P>(input: seq<(string, seq<(S, P)>)>)
    ensures InRange(Tabulate(input))
    ensures Untabulate(Tabulate(input)) == input
  {
    var r := Tabulate(input);
    forall i, k | 0 <= i < |r.results| && 0 <= k < |r.results[i].pairs|
      ensures 0 <= r.results[i].pairs[k].0 < |r.states| && 0 <= r.results[i].pairs[k].1 < |r.params|
      ensures r.states[r.results[i].pairs[k].0] == input[i].1[k].0
      ensures r.params[r.results[i].pairs[k].1] == input[i].1[k].1
    {
      TabulatePointsBack(input, i, k);
    }
    var back := Untabulate(r);
    forall i | 0 <= i < |input|
      ensures back[i] == input[i]
    {
      assert back[i].1 == input[i].1;
    }
  }

  /** Two entries get the same state index exactly when they have the same
      state, and likewise for parameter sets. */
  lemma TabulateSharesIndices<S, P>(input: seq<(string, seq<(S, P)>)>, i: int, k: int, i2: int, k2: int)
    requires 0 <= i < |input| && 0 <= k < |input[i].1|
    requires 0 <= i2 < |input| && 0 <= k2 < |input[i2].1|
    ensures Tabulate(input).results[i].pairs[k].0 == Tabulate(input).results[i2].pairs[k2].0 <==>
            input[i].1[k].0 == input[i2].1[k2].0
    ensures Tabulate(input).results[i].pairs[k].1 == Tabulate(input).results[i2].pairs[k2].1 <==>
            input[i].1[k].1 == input[i2].1[k2].1
  {
    TabulatePointsBack(input, i, k);
    TabulatePointsBack(input, i2, k2);
  }

  /** The indices are dense: every position of either table is used by a pair. */
  lemma TabulateDense<S, P>(input: seq<(string, seq<(S, P)>)>, j: int)
    requires 0 <= j < |Tabulate(input).states|
    ensures exists i, k :: 0 <= i < |input| && 0 <= k < |input[i].1| &&
                           Tabulate(input).results[i].pairs[k].0 == j
  {
    var r := Tabulate(input);
    var es := AllEntries(input);
    ExtendMembers([], Firsts(es), r.states[j]);
    var n :| 0 <= n < |es| && Firsts(es)[n] == r.states[j];
    assert es[n] in es;
    AllInSomeEntry(input, es[n]);
    var i, k :| 0 <= i < |input| && 0 <= k < |input[i].1| && input[i].1[k] == es[n];
    TabulateNoDuplicates(input);
    IndexOfNoDuplicates(r.states, j);
    assert r.results[i].pairs[k].0 == IndexOf(r.states, input[i].1[k].0);
  }

  lemma TabulateDenseParams<S, P>(input: seq<(string, seq<(S, P)>)>, j: int)
    requires 0 <= j < |Tabulate(input).params|
    ensures exists i, k :: 0 <= i < |input| && 0 <= k < |input[i].1| &&
                           Tabulate(input).results[i].pairs[k].1 == j
  {
    var r := Tabulate(input);
    var es := AllEntries(input);
    ExtendMembers([], Seconds(es), r.params[j]);
    var n :| 0 <= n < |es| && Seconds(es)[n] == r.params[j];
    assert es[n] in es;
    AllInSomeEntry(input, es[n]);
    var i, k :| 0 <= i < |input| && 0 <= k < |input[i].1| && input[i].1[k] == es[n];
    TabulateNoDuplicates(input);
    IndexOfNoDuplicates(r.params, j);
    assert r.results[i].pairs[k].1 == IndexOf(r.params, input[i].1[k].1);
  }

  /* ---------------------------------------------------------------------- */
  /* Building the tables step by step                                        */
  /* ---------------------------------------------------------------------- */

  /** A table and the hash index kept beside it agree: the index has a key for
      exactly the listed values, mapped to their positions. */
  ghost predicate Indexes<T(!new)>(table: seq<T>, index: map<T, int>)
  {
    (forall x :: x in index <==> x in table) &&
    (forall x :: x in index ==> index[x] == IndexOf(table, x))
  }

  /** `index.computeIfAbsent(x) { table.add(x); table.size - 1 }`. */
  method ComputeIfAbsent<T(==, !new)>(table: seq<T>, index: map<T, int>, x: T)
    returns (table': seq<T>, index': map<T, int>, i: int)
    requires Indexes(table, index)
    ensures Indexes(table', index')
    ensures table' == Extend(table, [x])
    ensures 0 <= i < |table'| && table'[i] == x && i == IndexOf(table', x)
  {
    assert [x][..0] == [];
    if x in index {
      table', index', i := table, index, index[x];
    } else {
      table' := table + [x];
      i := |table|;
      index' := index[x := i];
      forall y | y in index'
        ensures index'[y] == IndexOf(table', y)
      {
        if y != x {
          IndexOfPrefix(table, table', y);
        } else {
          IndexOfUnique(table', x, i);
        }
      }
    }
  }

  /** `val ii = table.indexOf(x); if (ii < 0) { table.add(x); table.size - 1 } else ii`. */
  method AddIfAbsent<T(==)>(table: seq<T>, x: T) returns (table': seq<T>, i: int)
    ensures table' == Extend(table, [x])
    ensures 0 <= i < |table'| && table'[i] == x && i == IndexOf(table', x)
  {
    assert [x][..0] == [];
    var ii := IndexOf(table, x);
    if ii < 0 {
      table' := table + [x];
      i := |table'| - 1;
      IndexOfUnique(table', x, i);
    } else {
      table', i := table, ii;
    }
  }

  /** Pairs already written stay valid while the tables grow. */
  lemma PairsStable<S, P>(st: seq<S>, pa: seq<P>, es: seq<(S, P)>, xs: seq<S>, ys: seq<P>)
    requires forall k :: 0 <= k < |es| ==> es[k].0 in st && es[k].1 in pa
    ensures Pairs(Extend(st, xs), Extend(pa, ys), es) == Pairs(st, pa, es)
  {
    ExtendPrefix(st, xs);
    ExtendPrefix(pa, ys);
    forall k | 0 <= k < |es|
      ensures IndexOf(Extend(st, xs), es[k].0) == IndexOf(st, es[k].0)
      ensures IndexOf(Extend(pa, ys), es[k].1) == IndexOf(pa, es[k].1)
    {
      IndexOfPrefix(st, Extend(st, xs), es[k].0);
      IndexOfPrefix(pa, Extend(pa, ys), es[k].1);
    }
  }

  /** After the entries `es` are added, their values are in the tables. */
  lemma EntriesAdded<S, P>(st: seq<S>, pa: seq<P>, es: seq<(S, P)>)
    ensures forall k :: 0 <= k < |es| ==> es[k].0 in Extend(st, Firsts(es)) && es[k].1 in Extend(pa, Seconds(es))
  {
    forall k | 0 <= k < |es|
      ensures es[k].0 in Extend(st, Firsts(es)) && es[k].1 in Extend(pa, Seconds(es))
    {
      assert Firsts(es)[k] == es[k].0 && Seconds(es)[k] == es[k].1;
      ExtendMembers(st, Firsts(es), es[k].0);
      ExtendMembers(pa, Seconds(es), es[k].1);
    }
  }

  /** Adding the entries `more` after `done`: the tables grow by `more`'s
      values and the pairs of `done` keep their meaning. */
  lemma PairsStep<S, P>(st0: seq<S>, pa0: seq<P>, done: seq<(S, P)>, more: seq<(S, P)>)
    ensures Extend(Extend(st0, Firsts(done)), Firsts(more)) == Extend(st0, Firsts(done + more))
    ensures Extend(Extend(pa0, Seconds(done)), Seconds(more)) == Extend(pa0, Seconds(done + more))
    ensures Pairs(Extend(st0, Firsts(done + more)), Extend(pa0, Seconds(done + more)), done + more) ==
            Pairs(Extend(st0, Firsts(done)), Extend(pa0, Seconds(done)), done) +
            Pairs(Extend(st0, Firsts(done + more)), Extend(pa0, Seconds(done + more)), more)
  {
    FirstsAppend(done, more);
    ExtendAppend(st0, Firsts(done), Firsts(more));
    ExtendAppend(pa0, Seconds(done), Seconds(more));
    EntriesAdded(st0, pa0, done);
    PairsStable(Extend(st0, Firsts(done)), Extend(pa0, Seconds(done)), done, Firsts(more), Seconds(more));
  }

  /** One more entry: its state and parameter set are added to the tables, and
      its pair of positions joins the pairs written so far. */
  lemma EntryStep<S, P>(st0: seq<S>, pa0: seq<P>, done: seq<(S, P)>, e: (S, P))
    ensures Extend(Extend(st0, Firsts(done)), [e.0]) == Extend(st0, Firsts(done + [e]))
    ensures Extend(Extend(pa0, Seconds(done)), [e.1]) == Extend(pa0, Seconds(done + [e]))
    ensures var st := Extend(st0, Firsts(done + [e]));
            var pa := Extend(pa0, Seconds(done + [e]));
            Pairs(st, pa, done + [e]) ==
            Pairs(Extend(st0, Firsts(done)), Extend(pa0, Seconds(done)), done) + [(IndexOf(st, e.0), IndexOf(pa, e.1))]
  {
    PairsStep(st0, pa0, done, [e]);
    assert Firsts([e]) == [e.0] && Seconds([e]) == [e.1];
  }

  /** The computeIfAbsent loop over one list of entries, as the printers of
      `Z3Main.kt` and `RectMain.kt` run it. */
  method HashEntries<S(==, !new), P(==, !new)>(states: seq<S>, stateIndex: map<S, int>, params: seq<P>,
                                   paramIndex: map<P, int>, entries: seq<(S, P)>)
    returns (states': seq<S>, stateIndex': map<S, int>, params': seq<P>, paramIndex': map<P, int>,
             pairs: seq<(int, int)>)
    requires Indexes(states, stateIndex) && Indexes(params, paramIndex)
    ensures Indexes(states', stateIndex') && Indexes(params', paramIndex')
    ensures states' == Extend(states, Firsts(entries)) && params' == Extend(params, Seconds(entries))
    ensures pairs == Pairs(states', params', entries)
  {
    states', stateIndex', params', paramIndex', pairs := states, stateIndex, params, paramIndex, [];
    for k := 0 to |entries|
      invariant Indexes(states', stateIndex') && Indexes(params', paramIndex')
      invariant states' == Extend(states, Firsts(entries[..k])) && params' == Extend(params, Seconds(entries[..k]))
      invariant pairs == Pairs(states', params', entries[..k])
    {
      var (s, p) := entries[k];
      var stateIdx, paramIdx;
      EntryStep(states, params, entries[..k], entries[k]);
      assert entries[..k] + [entries[k]] == entries[..k + 1];
      states', stateIndex', stateIdx := ComputeIfAbsent(states', stateIndex', s);
      params', paramIndex', paramIdx := ComputeIfAbsent(params', paramIndex', p);
      pairs := pairs + [(stateIdx, paramIdx)];
    }
    assert entries[..|entries|] == entries;
  }

  /** The entries with every parameter set replaced by its normal form. */
  function Normalised<S, P>(es: seq<(S, P)>, norm: P -> P): (r: seq<(S, P)>)
    ensures |r| == |es|
  {
    seq(|es|, k requires 0 <= k < |es| => (es[k].0, norm(es[k].1)))
  }

  /** The indexOf loop over one list of entries, as the printers of `Main.kt`
      run it; each parameter set passes through `norm` before it is looked up. */
  method ScanEntries<S(==), P(==)>(states: seq<S>, params: seq<P>, entries: seq<(S, P)>, norm: P -> P)
    returns (states': seq<S>, params': seq<P>, pairs: seq<(int, int)>)
    ensures states' == Extend(states, Firsts(Normalised(entries, norm)))
    ensures params' == Extend(params, Seconds(Normalised(entries, norm)))
    ensures pairs == Pairs(states', params', Normalised(entries, norm))
  {
    ghost var norms := Normalised(entries, norm);
    states', params', pairs := states, params, [];
    for k := 0 to |entries|
      invariant states' == Extend(states, Firsts(norms[..k])) && params' == Extend(params, Seconds(norms[..k]))
      invariant pairs == Pairs(states', params', norms[..k])
    {
      var (s, pp) := entries[k];
      var i, j;
      EntryStep(states, params, norms[..k], norms[k]);
      assert norms[..k] + [norms[k]] == norms[..k + 1];
      states', i := AddIfAbsent(states', s);
      var p := norm(pp);
      params', j := AddIfAbsent(params', p);
      pairs := pairs + [(i, j)];
    }
    assert norms[..|entries|] == norms;
  }

  /** One formula finished: its row joins the rows of the formulas before it. */
  lemma RowsStep<S, P>(input: seq<(string, seq<(S, P)>)>, i: int)
    requires 0 <= i < |input|
    ensures Extend(Distinct(Firsts(AllEntries(input[..i]))), Firsts(input[i].1)) ==
            Distinct(Firsts(AllEntries(input[..i + 1])))
    ensures Extend(Distinct(Seconds(AllEntries(input[..i]))), Seconds(input[i].1)) ==
            Distinct(Seconds(AllEntries(input[..i + 1])))
    ensures var st := Distinct(Firsts(AllEntries(input[..i + 1])));
            var pa := Distinct(Seconds(AllEntries(input[..i + 1])));
            Rows(st, pa, input[..i + 1]) ==
            Rows(Distinct(Firsts(AllEntries(input[..i]))), Distinct(Seconds(AllEntries(input[..i]))), input[..i]) +
            [Row(input[i].0, Pairs(st, pa, input[i].1))]
  {
    var done := AllEntries(input[..i]);
    AllEntriesStep(input, i);
    PairsStep([], [], done, input[i].1);
    var st0, pa0 := Distinct(Firsts(done)), Distinct(Seconds(done));
    var st, pa := Distinct(Firsts(done + input[i].1)), Distinct(Seconds(done + input[i].1));
    EntriesAdded([], [], done);
    forall j | 0 <= j < i
      ensures Pairs(st, pa, input[j].1) == Pairs(st0, pa0, input[j].1)
    {
      forall k | 0 <= k < |input[j].1|
        ensures input[j].1[k].0 in st0 && input[j].1[k].1 in pa0
      {
        EntryInAll(input[..i], j, k);
        var n :| 0 <= n < |done| && done[n] == input[j].1[k];
      }
      PairsStable(st0, pa0, input[j].1, Firsts(input[i].1), Seconds(input[i].1));
    }
  }

  /* ---------------------------------------------------------------------- */
  /* Results split into partitions                                           */
  /* ---------------------------------------------------------------------- */

  /** The entries of a formula's partitions, one partition after the other. */
  function Concat<S, P>(parts: seq<seq<(S, P)>>): seq<(S, P)>
    decreases |parts|
  {
    if |parts| == 0 then []
    else Concat(parts[..|parts| - 1]) + parts[|parts| - 1]
  }

  /** A partitioned result read as one list of entries per formula. */
  function Flatten<S, P>(input: seq<(string, seq<seq<(S, P)>>)>): (r: seq<(string, seq<(S, P)>)>)
    ensures |r| == |input|
  {
    seq(|input|, i requires 0 <= i < |input| => (input[i].0, Concat(input[i].1)))
  }

  /** The loop over a formula's partitions, each one's entries interned by
      the computeIfAbsent loop. */
  method HashPartitions<S(==, !new), P(==, !new)>(states: seq<S>, stateIndex: map<S, int>, params: seq<P>,
                                                  paramIndex: map<P, int>, parts: seq<seq<(S, P)>>)
    returns (states': seq<S>, stateIndex': map<S, int>, params': seq<P>, paramIndex': map<P, int>,
             pairs: seq<(int, int)>)
    requires Indexes(states, stateIndex) && Indexes(params, paramIndex)
    ensures Indexes(states', stateIndex') && Indexes(params', paramIndex')
    ensures states' == Extend(states, Firsts(Concat(parts))) && params' == Extend(params, Seconds(Concat(parts)))
    ensures pairs == Pairs(states', params', Concat(parts))
  {
    states', stateIndex', params', paramIndex', pairs := states, stateIndex, params, paramIndex, [];
    for m := 0 to |parts|
      invariant Indexes(states', stateIndex') && Indexes(params', paramIndex')
      invariant states' == Extend(states, Firsts(Concat(parts[..m])))
      invariant params' == Extend(params, Seconds(Concat(parts[..m])))
      invariant pairs == Pairs(states', params', Concat(parts[..m]))
    {
      var more;
      assert parts[..m + 1][..m] == parts[..m];
      PairsStep(states, params, Concat(parts[..m]), parts[m]);
      states', stateIndex', params', paramIndex', more := HashEntries(states', stateIndex', params', paramIndex', parts[m]);
      pairs := pairs + more;
    }
    assert parts[..|parts|] == parts;
  }
}
