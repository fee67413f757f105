/** The filled form: every bucket of the window once, joined with what was measured in it. */
module FillProof {
  import opened Sequences
  import opened Filters
  import opened Sql
  import opened Statements
  import opened Answers
  import opened Select
  import opened FoldProof
  import opened SelectProof
  import opened GroupProof
  import opened AnswerProof
  import R = RunQueries

  // ---------------------------------------------------------------------------
  // Reading
  // ---------------------------------------------------------------------------

  /** The fill binds its five values after n others. */
  function StepsAfter(n: nat): Steps { Steps(n + 1, n + 4, n + 2, n + 1, n + 5, n + 2, n + 3, n + 2) }

  lemma StepsRead(n: nat)
    ensures |SeriesText(n)| == 18 && ReadSteps(SeriesText(n)) == Some(StepsAfter(n))
    ensures SeriesText(n)[0] != Word("SELECT ")
  {
    hide StepsOpen, StepsClose;
    StepsOpened(n, SeriesText(n));
    StepsClosed(n, SeriesText(n));
    assert |"SELECT "| == 7 && |"WITH buckets AS (SELECT generate_series(date_trunc("| == 51;
  }

  lemma StepsOpened(n: nat, ts: seq<Tok>)
    requires ts == SeriesText(n)
    ensures |ts| == 18 && StepsOpen(ts)
  {
    var p, q, r, s := ts[1], ts[3], ts[5], ts[7];
    assert p == E(ParamT(n + 1)) && q == E(ParamT(n + 4)) && r == E(ParamT(n + 2)) && s == E(ParamT(n + 1));
    assert IsParam(p) && IsParam(q) && IsParam(r) && IsParam(s);
  }

  lemma StepsClosed(n: nat, ts: seq<Tok>)
    requires ts == SeriesText(n)
    ensures |ts| == 18 && StepsClose(ts)
  {
    var p, q, r, s := ts[9], ts[11], ts[13], ts[15];
    assert p == E(ParamT(n + 5)) && q == E(ParamT(n + 2)) && r == E(ParamT(n + 3)) && s == E(ParamT(n + 2));
    assert IsParam(p) && IsParam(q) && IsParam(r) && IsParam(s);
  }

  function ColumnsOf(aggregations: seq<Aggregation>): seq<JoinColumn> {
    seq(|aggregations|, i requires 0 <= i < |aggregations| => JoinColumn(i, ZeroOverNothing(aggregations[i]), AsValue(i)))
  }

  /** What was read before a list, and what is read of it. */
  function Onto(before: seq<JoinColumn>, r: Option<(seq<JoinColumn>, seq<Tok>)>): Option<(seq<JoinColumn>, seq<Tok>)> {
    match r
    case None => None
    case Some((more, rest)) => Some((before + more, rest))
  }

  lemma OneColumn(a: Aggregation, i: nat, rest: seq<Tok>)
    ensures ReadColumns([E(Comma)] + (FilledColumn(a, i) + [AsValue(i)]) + rest) ==
            Onto([JoinColumn(i, ZeroOverNothing(a), AsValue(i))], ReadColumns(rest))
  {
    var d := FilledColumn(a, i);
    var ts := [E(Comma)] + (d + [AsValue(i)]) + rest;
    assert ts[1..] == d + ([AsValue(i)] + rest);
    SpanIs(d, [AsValue(i)] + rest, Unnamed);
    assert ts[1..1 + |d|] == d && ts[1 + |d|] == AsValue(i) && ts[|d| + 2..] == rest;
    assert ReadColumn(d, AsValue(i)) == Some(JoinColumn(i, ZeroOverNothing(a), AsValue(i)));
  }

  lemma {:induction false} ColumnsRead(aggregations: seq<Aggregation>, rest: seq<Tok>)
    ensures ReadColumns(FilledColumns(aggregations) + rest) == Onto(ColumnsOf(aggregations), ReadColumns(rest))
    decreases |aggregations|
  {
    if aggregations == [] {
      assert FilledColumns(aggregations) + rest == rest && ColumnsOf(aggregations) == [];
      NothingOnto(ReadColumns(rest));
    } else {
      var i := |aggregations| - 1;
      ColumnsRead(Front(aggregations), [E(Comma)] + (FilledColumn(Last(aggregations), i) + [AsValue(i)]) + rest);
      ColumnsStep(aggregations, rest);
    }
  }

  lemma ColumnsStep(aggregations: seq<Aggregation>, rest: seq<Tok>)
    requires aggregations != []
    requires var i := |aggregations| - 1;
             var one := [E(Comma)] + (FilledColumn(Last(aggregations), i) + [AsValue(i)]);
             ReadColumns(FilledColumns(Front(aggregations)) + (one + rest)) ==
             Onto(ColumnsOf(Front(aggregations)), ReadColumns(one + rest))
    ensures ReadColumns(FilledColumns(aggregations) + rest) == Onto(ColumnsOf(aggregations), ReadColumns(rest))
  {
    hide ReadColumns, FilledColumn, Onto;
    var a, i := Last(aggregations), |aggregations| - 1;
    var before, one := FilledColumns(Front(aggregations)), [E(Comma)] + (FilledColumn(a, i) + [AsValue(i)]);
    var c := JoinColumn(i, ZeroOverNothing(a), AsValue(i));
    Assoc(before, [E(Comma)], FilledColumn(a, i) + [AsValue(i)]);
    Assoc(before, one, rest);
    OneColumn(a, i, rest);
    assert ColumnsOf(aggregations) == ColumnsOf(Front(aggregations)) + [c];
    OntoTwice(ColumnsOf(Front(aggregations)), [c], ReadColumns(rest));
  }

  lemma NothingOnto(r: Option<(seq<JoinColumn>, seq<Tok>)>)
    ensures Onto([], r) == r
  {
    if r.Some? { assert [] + r.value.0 == r.value.0; }
  }

  lemma OntoTwice(a: seq<JoinColumn>, b: seq<JoinColumn>, r: Option<(seq<JoinColumn>, seq<Tok>)>)
    ensures Onto(a, Onto(b, r)) == Onto(a + b, r)
  {
    if r.Some? { Assoc(a, b, r.value.0); }
  }

  const JOIN := Word(" FROM buckets b LEFT JOIN measured m ON m.bucket = b.bucket")

  /** The four parts of a filled statement, one after the other. */
  lemma FilledParts(n: nat, measured: seq<Tok>, q: Query, core: Core, end: seq<Tok>, finish: Finish)
    requires var rest := [Word(") SELECT b.bucket"), AsBucket] + FilledColumns(q.aggregations) + ([JOIN] + end);
             ReadCore(measured + rest) == Some((core, rest))
    requires ReadFinish(end) == Some(finish)
    ensures var ts := SeriesText(n) + measured + ([Word(") SELECT b.bucket"), AsBucket] + FilledColumns(q.aggregations)) + ([JOIN] + end);
            ReadStatement(ts) == Some(Filled(StepsAfter(n), core, ColumnsOf(q.aggregations), finish))
  {
    var columns := FilledColumns(q.aggregations);
    var rest := [Word(") SELECT b.bucket"), AsBucket] + columns + ([JOIN] + end);
    var ts := SeriesText(n) + measured + ([Word(") SELECT b.bucket"), AsBucket] + columns) + ([JOIN] + end);
    StepsRead(n);
    ColumnsRead(q.aggregations, [JOIN] + end);
    StopsAtJoin(end, ColumnsOf(q.aggregations));
    hide SeriesText, FilledColumns, ReadSteps, ReadCore, ReadColumns, ReadFinish, ColumnsOf;
    assert ts == SeriesText(n) + (measured + rest);
    assert ts[..18] == SeriesText(n) && ts[18..] == measured + rest;
    assert rest[2..] == columns + ([JOIN] + end) && ([JOIN] + end)[1..] == end;
    assert ts[0] == SeriesText(n)[0];
  }

  lemma StopsAtJoin(end: seq<Tok>, columns: seq<JoinColumn>)
    ensures Onto(columns, ReadColumns([JOIN] + end)) == Some((columns, [JOIN] + end))
  {
    assert columns + [] == columns;
  }

  // ---------------------------------------------------------------------------
  // The series
  // ---------------------------------------------------------------------------

  /** The generated instants are the starts of the window's units. */
  lemma SeriesMeans(ps: seq<V>, b: Bucket, scope: Scope, all: seq<V>, env: Env)
    requires ps + SeriesValues(b, scope) <= all
    ensures SeriesV(StepsAfter(|ps|), all, env) == Some(Starts(b, scope, env))
  {
    hide UnitName, StepName, UnitOf, StepOf;
    var n := |ps|;
    UnitRead(b.unit);
    assert all[n] == VText(UnitName(b.unit)) && all[n + 1] == VText(b.timezone) && all[n + 2] == VText(StepName(b.unit));
    assert all[n + 3] == VTime(scope.from) && all[n + 4] == VTime(scope.to);
  }

  // ---------------------------------------------------------------------------
  // The join
  // ---------------------------------------------------------------------------

  /** Lines of one bucket each, no two of the same. */
  ghost predicate Marked(measured: seq<RawRow>, gs: seq<Group>) {
    && |measured| == |gs|
    && (forall j | 0 <= j < |gs| :: gs[j].bucket.Some? && gs[j].texts == [] && At(measured[j], AsBucket) == RTime(gs[j].bucket.value))
    && forall i, j | 0 <= i < j < |gs| :: gs[i] != gs[j]
  }

  /** What is joined to an instant: the line measured there, or none if there is no such group. */
  ghost predicate PairFor(p: Pair, at: int, measured: seq<RawRow>, gs: seq<Group>)
    requires |measured| == |gs|
  {
    && p.at == at
    && (p.measured.None? ==> Group(Some(at), []) !in gs)
    && (p.measured.Some? ==> exists j :: 0 <= j < |gs| && gs[j] == Group(Some(at), []) && measured[j] == p.measured.value)
  }

  lemma {:induction false} MatchingOne(at: int, measured: seq<RawRow>, gs: seq<Group>)
    requires Marked(measured, gs)
    ensures |Matching(at, measured)| <= 1
    ensures Matching(at, measured) == [] ==> Group(Some(at), []) !in gs
    ensures |Matching(at, measured)| == 1 ==> PairFor(Pair(at, Some(Matching(at, measured)[0])), at, measured, gs)
    decreases |measured|
  {
    if measured != [] {
      var m, g := Front(measured), Front(gs);
      MatchingOne(at, m, g);
      assert gs == g + [Last(gs)];
      if At(Last(measured), AsBucket) == RTime(at) {
        assert Last(gs) == Group(Some(at), []);
        assert forall j | 0 <= j < |g| :: gs[j] != gs[|g|];
      }
      if |Matching(at, m)| == 1 {
        var j :| 0 <= j < |g| && g[j] == Group(Some(at), []) && m[j] == Matching(at, m)[0];
        assert gs[j] == g[j] && measured[j] == m[j];
      }
    }
  }

  lemma PairOne(at: int, measured: seq<RawRow>, gs: seq<Group>)
    requires Marked(measured, gs)
    ensures |PairsOf(at, measured)| == 1 && PairFor(PairsOf(at, measured)[0], at, measured, gs)
  {
    hide Matching;
    MatchingOne(at, measured, gs);
  }

  lemma {:induction false} PairsAre(instants: seq<int>, measured: seq<RawRow>, gs: seq<Group>)
    requires Marked(measured, gs)
    ensures |Pairs(instants, measured)| == |instants|
    ensures forall i | 0 <= i < |instants| :: PairFor(Pairs(instants, measured)[i], instants[i], measured, gs)
    decreases |instants|
  {
    hide Marked, PairFor, PairsOf;
    if instants != [] {
      PairsAre(Front(instants), measured, gs);
      PairOne(Last(instants), measured, gs);
      PairsStep(instants, measured, Pairs(Front(instants), measured), PairsOf(Last(instants), measured));
    }
  }

  lemma PairsStep(instants: seq<int>, measured: seq<RawRow>, before: seq<Pair>, last: seq<Pair>)
    requires instants != [] && before == Pairs(Front(instants), measured) && last == PairsOf(Last(instants), measured)
    requires |before| == |instants| - 1 && |last| == 1
    ensures var all := Pairs(instants, measured);
            |all| == |instants| && all[|instants| - 1] == last[0] && forall i | 0 <= i < |before| :: all[i] == before[i]
  {
    hide PairsOf;
  }

  /** Where no row is in a bucket, a filled value is zero or nothing, as the column says. */
  lemma NothingThere(a: Aggregation, env: Env)
    ensures FilledValue(a, [], env) == if ZeroOverNothing(a) then Some(0.0) else None
  {
    if a.CountDistinct? {
      assert Texts(a.field, [], env) == [];
      assert (set t | t in Texts(a.field, [], env)) == {};
    }
  }

  lemma ZeroIsSum(a: Aggregation, rows: seq<Row>, env: Env)
    ensures FilledValue(a, rows, env) ==
            if ZeroOverNothing(a) && ValueOf(a, rows, env).None? then Some(0.0) else ValueOf(a, rows, env)
  {
  }

  lemma ColumnMeans(c: JoinColumn, a: Aggregation, p: Pair, rows: seq<Row>, env: Env)
    requires c.zero == ZeroOverNothing(a)
    requires p.measured.Some? ==> Handed(OfNumber(ValueOf(a, rows, env)), At(p.measured.value, AsValue(c.of)))
    requires p.measured.None? ==> rows == []
    ensures Handed(OfNumber(FilledValue(a, rows, env)), ColumnRaw(c, p))
  {
    hide ValueOf, ZeroOverNothing, FilledValue;
    if p.measured.None? { NothingThere(a, env); } else { ZeroIsSum(a, rows, env); }
  }

  /** A joined line is the line of its bucket. */
  lemma JoinedAgrees(raw: RawRow, p: Pair, q: Query, at: int, measured: seq<RawRow>, gs: seq<Group>, rows: seq<Row>, env: Env)
    requires q.aggregations != [] && q.bucket.Some? && OrNone(q.groupBy) == [] && !Set(q.withTotal)
    requires |measured| == |gs| && PairFor(p, at, measured, gs) && Groups(gs, q, rows, env)
    requires forall j | 0 <= j < |gs| :: Agrees(measured[j], LineOf(q, gs, gs[j], rows, env), q)
    requires JoinedLine(raw, p, ColumnsOf(q.aggregations))
    ensures Agrees(raw, FilledLine(q, at, rows, env), q)
  {
    hide ValueOf, FilledValue, Members, ColumnRaw, GroupOf, TotalValues;
    var g := Group(Some(at), []);
    var mine := Members(q, rows, g, env);
    var r, columns := FilledLine(q, at, rows, env), ColumnsOf(q.aggregations);
    if p.measured.None? { EmptyGroup(q, rows, g, env) by { assert g !in gs; } }
    forall i | 0 <= i < |q.aggregations|
      ensures Handed(OfNumber(r.value[i]), At(raw, AsValue(i)))
    {
      var a := q.aggregations[i];
      if p.measured.Some? {
        var j :| 0 <= j < |gs| && gs[j] == g && measured[j] == p.measured.value;
        assert LineOf(q, gs, g, rows, env).value[i] == ValueOf(a, mine, env);
        assert Agrees(measured[j], LineOf(q, gs, g, rows, env), q);
      }
      ColumnMeans(columns[i], a, p, mine, env);
      assert columns[i].name == AsValue(i);
    }
  }

  lemma {:induction false} EmptyGroup(q: Query, rows: seq<Row>, g: Group, env: Env)
    requires !exists row :: row in rows && GroupOf(q, row, env) == g
    ensures Members(q, rows, g, env) == []
    decreases |rows|
  {
    if rows != [] {
      hide GroupOf;
      assert rows == Front(rows) + [Last(rows)];
      assert Last(rows) in rows;
      EmptyGroup(q, Front(rows), g, env);
    }
  }

  lemma GroupsMarked(q: Query, gs: seq<Group>, measured: seq<RawRow>, rows: seq<Row>, env: Env)
    requires q.aggregations != [] && q.bucket.Some? && OrNone(q.groupBy) == [] && |measured| == |gs| && Groups(gs, q, rows, env)
    requires forall j | 0 <= j < |gs| :: Agrees(measured[j], LineOf(q, gs, gs[j], rows, env), q)
    ensures Marked(measured, gs)
  {
    hide ValueOf, TotalValues, Members;
    forall j | 0 <= j < |gs|
      ensures gs[j].bucket.Some? && gs[j].texts == [] && At(measured[j], AsBucket) == RTime(gs[j].bucket.value)
    {
      assert gs[j] in gs;
      assert Agrees(measured[j], LineOf(q, gs, gs[j], rows, env), q);
    }
  }

  lemma FilledLines(core: Core, q: Query, scope: Scope, ps: seq<V>, all: seq<V>, table: seq<Row>,
                    measured: seq<RawRow>, raws: seq<RawRow>, env: Env)
    requires ShapeOk(q) && Set(q.fill) && CoreMeans(core, q, scope, all, env) && Measures(core, all, table, env, measured)
    requires ps + SeriesValues(q.bucket.value, scope) <= all
    requires Joins(StepsAfter(|ps|), ColumnsOf(q.aggregations), all, measured, env, raws)
    requires Sorted(TermsOf(OrdersOf(q)), raws, env) && forall o | o in OrdersOf(q) :: Has(q, o.key)
    ensures Lines(q, scope, table, env, R.DecodeAll(raws, q, env)) && Arranged(OrdersOf(q), R.DecodeAll(raws, q, env), env)
  {
    hide CoreMeans, Measures, Agrees, Groups, Sorted, Arranged, OrdersOf, TermsOf, R.DecodeAll, LineOf, FilledLine, Picked, Has;
    hide Starts, SeriesV, Marked, PairFor, JoinedLine, ColumnsOf, Pairs, StepsAfter, SeriesValues;
    var rows := Picked(q, scope, table, env);
    var starts := Starts(q.bucket.value, scope, env);
    SeriesMeans(ps, q.bucket.value, scope, all, env);
    var gs := MeasuredAgrees(core, q, scope, all, table, measured, env);
    GroupsMarked(q, gs, measured, rows, env);
    PairsAre(starts, measured, gs);
    var pairs := Pairs(starts, measured);
    var order: seq<nat> :|
      && |order| == |pairs| == |raws| && (forall i | 0 <= i < |order| :: order[i] < |pairs|)
      && (forall i, j | 0 <= i < j < |order| :: order[i] != order[j])
      && (forall i | 0 <= i < |order| :: JoinedLine(raws[i], pairs[order[i]], ColumnsOf(q.aggregations)));
    var lines := seq(|order|, i requires 0 <= i < |order| => FilledLine(q, starts[order[i]], rows, env));
    forall i | 0 <= i < |raws|
      ensures Agrees(raws[i], lines[i], q)
    {
      JoinedAgrees(raws[i], pairs[order[i]], q, starts[order[i]], measured, gs, rows, env);
    }
    AllDecode(raws, lines, q, env);
    SortedMeans(OrdersOf(q), q, raws, lines, env);
    assert Arrangement(order, |starts|);
  }

  /** A filled statement is read as its series, a core that means the query, its columns, its order and its limit. */
  lemma FilledRead(q: Query, scope: Scope, env: Env) returns (core: Core, ps: seq<V>, n: Option<nat>)
    requires Compile(q, scope, env).Some? && Set(q.fill)
    ensures ShapeOk(q)
    ensures var d := Compile(q, scope, env).value;
            && ReadStatement(d.ts) == Some(Filled(StepsAfter(|ps|), core, ColumnsOf(q.aggregations), Finish(TermsOf(OrdersOf(q)), n)))
            && CoreMeans(core, q, scope, d.ps, env) && BoundAt(n, q.limit, d.ps)
            && ps + SeriesValues(q.bucket.value, scope) <= d.ps
    ensures forall o | o in OrdersOf(q) :: Has(q, o.key)
  {
    hide MeasuredText, OrderText, CoreMeans, ReadCore, ReadFinish, OrderClause, LimitClause, BoundAt, Has, ReadStatement;
    hide TermsOf, OrdersOf, SeriesText, SeriesValues, FilledColumns, StepsAfter, ColumnsOf;
    var d, m, b := Compile(q, scope, env).value, MeasuredText(q, scope, env).value, q.bucket.value;
    ps := m.ps;
    var order := OrderText(q, 0).value;
    var bound := ps + SeriesValues(b, scope);
    var limit := LimitClause(q.limit, bound);
    var end := OrderClause(order) + limit.ts;
    var rest := [Word(") SELECT b.bucket"), AsBucket] + FilledColumns(q.aggregations) + ([JOIN] + end);
    LimitExtends(q.limit, bound);
    FinishRead(q, order, bound, d.ps);
    NotGrouping();
    core := CoreReads(q, scope, env, d.ps, rest);
    n := if q.limit.Some? then Some(|bound| + 1) else None;
    FilledParts(|ps|, m.ts, q, core, end, Finish(TermsOf(OrdersOf(q)), n));
    assert [JOIN] + OrderClause(order) + limit.ts == [JOIN] + end;
  }

  lemma NotGrouping()
    ensures Word(") SELECT b.bucket") != Word(" GROUP BY ")
  {
    assert |") SELECT b.bucket"| == 17 && |" GROUP BY "| == 10;
  }
}
