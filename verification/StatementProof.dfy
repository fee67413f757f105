/**
 * What a database may give back for a compiled statement, decoded, is exactly
 * what may answer the query: nothing else, and nothing less.
 */
module StatementProof {
  import opened Sequences
  import opened Filters
  import opened Sql
  import opened Statements
  import opened Answers
  import opened Select
  import opened FoldProof
  import opened SelectProof
  import opened GroupProof
  import opened AnswerProof
  import opened FillProof
  import R = RunQueries

  // ---------------------------------------------------------------------------
  // Groups and their keys
  // ---------------------------------------------------------------------------

  /** The groups of any rows can be listed. */
  lemma {:induction false} GroupsExist(q: Query, rows: seq<Row>, env: Env) returns (gs: seq<Group>)
    ensures Groups(gs, q, rows, env)
    decreases |rows|
  {
    if q.bucket.None? && OrNone(q.groupBy) == [] {
      gs := [Group(None, [])];
    } else if rows == [] {
      gs := [];
    } else {
      var before := GroupsExist(q, Front(rows), env);
      gs := Listed(q, rows, before, env);
    }
  }

  lemma Listed(q: Query, rows: seq<Row>, before: seq<Group>, env: Env) returns (gs: seq<Group>)
    requires rows != [] && Groups(before, q, Front(rows), env) && !(q.bucket.None? && OrNone(q.groupBy) == [])
    ensures Groups(gs, q, rows, env)
  {
    hide GroupOf;
    var last := GroupOf(q, Last(rows), env);
    gs := if last in before then before else before + [last];
    assert rows == Front(rows) + [Last(rows)];
    forall g
      ensures g in gs <==> exists row :: row in rows && GroupOf(q, row, env) == g
    {
      if g in before {
        var row :| row in Front(rows) && GroupOf(q, row, env) == g;
        assert row in rows;
      }
      if g == last { assert Last(rows) in rows; }
      if row :| row in rows && GroupOf(q, row, env) == g {
        if row in Front(rows) { assert g in before; }
      }
    }
  }

  function KeysOf(gs: seq<Group>): seq<seq<V>> { seq(|gs|, i requires 0 <= i < |gs| => KeyOf(gs[i])) }

  lemma GroupsStand(q: Query, gs: seq<Group>, rows: seq<Row>, env: Env)
    requires Groups(gs, q, rows, env)
    ensures Stand(q, KeysOf(gs), gs)
  {
    hide KeyOf;
    forall i | 0 <= i < |gs|
      ensures Shaped(q, gs[i])
    {
      assert gs[i] in gs;
    }
  }

  /** The groups there are have the keys there are. */
  lemma KeysMean(c: Core, q: Query, scope: Scope, all: seq<V>, rows: seq<Row>, gs: seq<Group>, env: Env)
    requires q.aggregations != [] && CoreMeans(c, q, scope, all, env) && Groups(gs, q, rows, env)
    ensures KeysV(KeysOf(gs), c, all, rows, env)
  {
    hide CoreMeans, KeyV, KeyOf, GroupOf, Shaped;
    GroupsStand(q, gs, rows, env);
    GroupSize(c, q, scope, all, env);
    var keys := KeysOf(gs);
    if c.group == [] {
      NoKey(q);
      assert keys == [[]];
    } else {
      forall i, j | 0 <= i < j < |keys|
        ensures keys[i] != keys[j]
      {
        if keys[i] == keys[j] {
          AllBucketed(q, gs[i], gs[j]);
          KeyDecides(gs[i], gs[j]);
        }
      }
      forall k
        ensures k in keys <==> exists row :: row in rows && KeyV(c, all, row, env) == k
      {
        if k in keys {
          var i :| 0 <= i < |keys| && keys[i] == k;
          assert gs[i] in gs;
          var row :| row in rows && GroupOf(q, row, env) == gs[i];
          KeyMeans(c, q, scope, all, row, env);
        }
        if row :| row in rows && KeyV(c, all, row, env) == k {
          KeyMeans(c, q, scope, all, row, env);
          assert GroupOf(q, row, env) in gs;
          var i :| 0 <= i < |gs| && gs[i] == GroupOf(q, row, env);
          assert keys[i] == k;
        }
      }
    }
  }

  lemma AllBucketed(q: Query, g: Group, h: Group)
    requires Shaped(q, g) && Shaped(q, h)
    ensures g.bucket.Some? <==> h.bucket.Some?
  {
  }

  // ---------------------------------------------------------------------------
  // A line as the driver would hand it over
  // ---------------------------------------------------------------------------

  function RawOf(v: V): Raw {
    match v
    case VText(s) => RText(s)
    case VNum(n) => RNum(n)
    case VTime(t) => RTime(t)
    case _ => RNull
  }

  function RawAt(t: Tok, r: QueryRow): Raw {
    match t
    case AsBucket => if r.bucket.Some? then RTime(r.bucket.value) else RNull
    case AsGroup(i) => if i < |r.group| then RawOf(OfText(r.group[i])) else RNull
    case AsValue(i) => if i < |r.value| then RawOf(OfNumber(r.value[i])) else RNull
    case AsTotal => if r.total.Some? then RawOf(OfNumber(r.total.value)) else RNull
    case _ => RNull
  }

  ghost function RawLine(q: Query, r: QueryRow): RawRow { map t | t in Columns(ShapeOf(q)) :: RawAt(t, r) }

  /** A line of an answer of the query's shape. */
  predicate Fitting(q: Query, r: QueryRow) {
    && (q.bucket.Some? <==> r.bucket.Some?) && |r.group| == |OrNone(q.groupBy)| && |r.value| == |q.aggregations|
    && (Set(q.withTotal) <==> r.total.Some?)
  }

  lemma RawAgrees(q: Query, r: QueryRow)
    requires Fitting(q, r)
    ensures Agrees(RawLine(q, r), r, q)
  {
    var raw := RawLine(q, r);
    assert r.bucket.Some? ==> AsBucket in Columns(ShapeOf(q));
    assert r.total.Some? ==> AsTotal in Columns(ShapeOf(q));
    assert forall i | 0 <= i < |r.group| :: AsGroup(i) in Columns(ShapeOf(q));
    assert forall i | 0 <= i < |r.value| :: AsValue(i) in Columns(ShapeOf(q));
  }

  lemma NameThere(q: Query, k: nat)
    requires q.aggregations != [] && k < |Specs(q)|
    ensures NameOf(Specs(q)[k]) in Columns(ShapeOf(q))
  {
  }

  lemma WantedHanded(s: Spec, q: Query, gs: seq<Group>, g: Group, rows: seq<Row>, env: Env, k: nat)
    requires q.aggregations != [] && k < |Specs(q)| && s == Specs(q)[k] && Shaped(q, g)
    ensures Handed(Wanted(s, q, gs, g, rows, env), RawAt(NameOf(s), LineOf(q, gs, g, rows, env)))
  {
    hide ValueOf, Members, TotalValues;
  }

  lemma LineReached(c: Core, q: Query, scope: Scope, all: seq<V>, gs: seq<Group>, i: nat, rows: seq<Row>, env: Env)
    requires q.aggregations != [] && CoreMeans(c, q, scope, all, env) && Groups(gs, q, rows, env) && i < |gs|
    ensures LineV(RawLine(q, LineOf(q, gs, gs[i], rows, env)), c, all, KeysOf(gs), KeyOf(gs[i]), rows, env)
  {
    hide CoreMeans, Groups, ItemV, Specs, Wanted, LineOf, KeysV, KeyOf, Handed, RawAt, Columns;
    KeysMean(c, q, scope, all, rows, gs, env);
    GroupsStand(q, gs, rows, env);
    forall k | 0 <= k < |c.items|
      ensures c.items[k].name in RawLine(q, LineOf(q, gs, gs[i], rows, env))
      ensures Handed(ItemV(c, k, all, KeysOf(gs), KeyOf(gs[i]), rows, env), RawLine(q, LineOf(q, gs, gs[i], rows, env))[c.items[k].name])
    {
      ItemCount(c, q, scope, all, env);
      ItemIs(c, q, scope, all, KeysOf(gs), gs, i, k, rows, env);
      NameIs(c, q, scope, all, k, env);
      NameThere(q, k);
      WantedHanded(Specs(q)[k], q, gs, gs[i], rows, env, k);
    }
  }

  lemma ItemCount(c: Core, q: Query, scope: Scope, all: seq<V>, env: Env)
    requires q.aggregations != [] && CoreMeans(c, q, scope, all, env)
    ensures |c.items| == |Specs(q)|
  {
  }

  ghost function RawLines(q: Query, lines: seq<QueryRow>): seq<RawRow> {
    seq(|lines|, i requires 0 <= i < |lines| => RawLine(q, lines[i]))
  }

  ghost function LinesOf(q: Query, gs: seq<Group>, rows: seq<Row>, env: Env): seq<QueryRow>
    requires q.aggregations != []
  {
    seq(|gs|, i requires 0 <= i < |gs| => LineOf(q, gs, gs[i], rows, env))
  }

  lemma LinesFit(q: Query, gs: seq<Group>, rows: seq<Row>, env: Env)
    requires q.aggregations != [] && Groups(gs, q, rows, env)
    ensures AllAgree(RawLines(q, LinesOf(q, gs, rows, env)), LinesOf(q, gs, rows, env), q)
  {
    hide Agrees, RawLine, ValueOf, TotalValues, Members, KeyOf, Groups;
    GroupsStand(q, gs, rows, env);
    var lines := LinesOf(q, gs, rows, env);
    forall i | 0 <= i < |lines|
      ensures Agrees(RawLine(q, lines[i]), lines[i], q)
    {
      assert Shaped(q, gs[i]);
      RawAgrees(q, lines[i]);
    }
  }

  /** Any listing of the groups may be measured. */
  lemma MeasuresAny(c: Core, q: Query, scope: Scope, all: seq<V>, table: seq<Row>, gs: seq<Group>, env: Env)
    requires q.aggregations != [] && CoreMeans(c, q, scope, all, env) && Groups(gs, q, Picked(q, scope, table, env), env)
    ensures Measures(c, all, table, env, RawLines(q, LinesOf(q, gs, Picked(q, scope, table, env), env)))
  {
    hide Groups, KeysV, LineV, LineOf, RawLine, Chosen, Eval, Specs, Means, KeyOf;
    KeptArePicked(c, q, scope, all, table, env);
    var rows := Picked(q, scope, table, env);
    var raws, keys := RawLines(q, LinesOf(q, gs, rows, env)), KeysOf(gs);
    KeysMean(c, q, scope, all, rows, gs, env);
    forall i | 0 <= i < |raws|
      ensures LineV(raws[i], c, all, keys, keys[i], rows, env)
    {
      LineReached(c, q, scope, all, gs, i, rows, env);
    }
  }

  // ---------------------------------------------------------------------------
  // Order and limit
  // ---------------------------------------------------------------------------

  lemma ArrangedSorts(os: seq<Ordering>, q: Query, raws: seq<RawRow>, lines: seq<QueryRow>, env: Env)
    requires AllAgree(raws, lines, q) && (forall o | o in os :: Has(q, o.key)) && Arranged(os, lines, env)
    ensures Sorted(TermsOf(os), raws, env)
  {
    hide Agrees, NoLater, NotAfter, TermsOf;
    forall i, j | 0 <= i < j < |raws|
      ensures NoLater(TermsOf(os), raws[i], raws[j], env)
    {
      OrderMeans(os, q, raws[i], raws[j], lines[i], lines[j], env);
    }
  }

  lemma CutReached(n: Option<nat>, q: Query, all: seq<V>, lines: seq<RawRow>, env: Env) returns (raws: seq<RawRow>)
    requires BoundAt(n, q.limit, all) && LimitOk(q.limit)
    ensures CutOff(n, all, lines) == Some(raws)
    ensures R.DecodeAll(raws, q, env) == Limited(q.limit, R.DecodeAll(lines, q, env))
  {
    hide R.DecodeAll;
    if q.limit.Some? { assert (q.limit.value as real).Floor == q.limit.value; }
    raws := CutOff(n, all, lines).value;
    CutMeans(n, q, all, lines, raws, env);
  }

  // ---------------------------------------------------------------------------
  // Both forms
  // ---------------------------------------------------------------------------

  lemma SimpleReached(core: Core, n: Option<nat>, q: Query, scope: Scope, all: seq<V>, table: seq<Row>,
                      out: seq<QueryRow>, env: Env)
      returns (raws: seq<RawRow>)
    requires q.aggregations != [] && !Set(q.fill) && CoreMeans(core, q, scope, all, env) && BoundAt(n, q.limit, all)
    requires LimitOk(q.limit)
    requires (forall o | o in OrdersOf(q) :: Has(q, o.key)) && IsAnswer(q, scope, table, env, out)
    ensures Returns(Simple(core, Finish(TermsOf(OrdersOf(q)), n)), all, table, env, raws) && R.DecodeAll(raws, q, env) == out
  {
    hide CoreMeans, Groups, Measures, Sorted, Arranged, OrdersOf, TermsOf;
    hide CutOff, Limited, R.DecodeAll, LineOf, Picked, BoundAt, Has;
    hide RawLines, AllAgree;
    var lines :| Lines(q, scope, table, env, lines) && Arranged(OrdersOf(q), lines, env) && out == Limited(q.limit, lines);
    var rows := Picked(q, scope, table, env);
    var gs :| Groups(gs, q, rows, env) && |lines| == |gs| &&
              forall i | 0 <= i < |lines| :: lines[i] == LineOf(q, gs, gs[i], rows, env);
    assert lines == LinesOf(q, gs, rows, env);
    var all' := RawLines(q, lines);
    MeasuresAny(core, q, scope, all, table, gs, env);
    LinesFit(q, gs, rows, env);
    AllDecode(all', lines, q, env);
    ArrangedSorts(OrdersOf(q), q, all', lines, env);
    raws := CutReached(n, q, all, all', env);
  }

  ghost function FilledOf(q: Query, starts: seq<int>, order: seq<nat>, rows: seq<Row>, env: Env): seq<QueryRow>
    requires forall i | 0 <= i < |order| :: order[i] < |starts|
  {
    seq(|order|, i requires 0 <= i < |order| => FilledLine(q, starts[order[i]], rows, env))
  }

  /** A line of the join holds what its pair has. */
  ghost function JoinedRaw(p: Pair, columns: seq<JoinColumn>): RawRow {
    if columns == [] then map[AsBucket := RTime(p.at)]
    else JoinedRaw(p, Front(columns))[Last(columns).name := ColumnRaw(Last(columns), p)]
  }

  lemma {:induction false} JoinedHolds(p: Pair, columns: seq<JoinColumn>)
    requires forall i, j | 0 <= i < j < |columns| :: columns[i].name != columns[j].name
    requires forall i | 0 <= i < |columns| :: columns[i].name != AsBucket
    ensures JoinedLine(JoinedRaw(p, columns), p, columns)
    decreases |columns|
  {
    hide ColumnRaw;
    if columns != [] { JoinedHolds(p, Front(columns)); }
  }

  lemma ColumnsDiffer(aggregations: seq<Aggregation>)
    ensures var c := ColumnsOf(aggregations);
            && (forall i, j | 0 <= i < j < |c| :: c[i].name != c[j].name)
            && forall i | 0 <= i < |c| :: c[i].name != AsBucket
  {
    hide ZeroOverNothing;
  }

  lemma FilledReached(core: Core, ps: seq<V>, n: Option<nat>, q: Query, scope: Scope, all: seq<V>, table: seq<Row>,
                      out: seq<QueryRow>, env: Env)
      returns (raws: seq<RawRow>)
    requires ShapeOk(q) && Set(q.fill) && CoreMeans(core, q, scope, all, env) && BoundAt(n, q.limit, all)
    requires ps + SeriesValues(q.bucket.value, scope) <= all
    requires (forall o | o in OrdersOf(q) :: Has(q, o.key)) && IsAnswer(q, scope, table, env, out)
    ensures Returns(Filled(StepsAfter(|ps|), core, ColumnsOf(q.aggregations), Finish(TermsOf(OrdersOf(q)), n)), all, table, env, raws)
    ensures R.DecodeAll(raws, q, env) == out
  {
    hide CoreMeans, Groups, Measures, Sorted, Arranged, OrdersOf, TermsOf;
    hide CutOff, Limited, R.DecodeAll, LineOf, Picked, BoundAt, Has;
    hide RawLines, AllAgree, Joins, FilledLine, Starts, SeriesValues, StepsAfter, ColumnsOf;
    var lines :| Lines(q, scope, table, env, lines) && Arranged(OrdersOf(q), lines, env) && out == Limited(q.limit, lines);
    var rows, starts := Picked(q, scope, table, env), Starts(q.bucket.value, scope, env);
    var order :| Arrangement(order, |starts|) && |lines| == |starts| &&
                 forall i | 0 <= i < |lines| :: lines[i] == FilledLine(q, starts[order[i]], rows, env);
    assert lines == FilledOf(q, starts, order, rows, env);
    var gs := GroupsExist(q, rows, env);
    MeasuresAny(core, q, scope, all, table, gs, env);
    var joined := JoinReached(q, scope, ps, all, rows, gs, order, env);
    AllDecode(joined, lines, q, env);
    ArrangedSorts(OrdersOf(q), q, joined, lines, env);
    raws := CutReached(n, q, all, joined, env);
  }

  /** The join of what is measured, in any arrangement of the instants. */
  lemma JoinReached(q: Query, scope: Scope, ps: seq<V>, all: seq<V>, rows: seq<Row>, gs: seq<Group>, order: seq<nat>, env: Env)
      returns (joined: seq<RawRow>)
    requires ShapeOk(q) && Set(q.fill) && ps + SeriesValues(q.bucket.value, scope) <= all
    requires Groups(gs, q, rows, env) && Arrangement(order, |Starts(q.bucket.value, scope, env)|)
    ensures Joins(StepsAfter(|ps|), ColumnsOf(q.aggregations), all, RawLines(q, LinesOf(q, gs, rows, env)), env, joined)
    ensures AllAgree(joined, FilledOf(q, Starts(q.bucket.value, scope, env), order, rows, env), q)
  {
    hide Groups, LineOf, RawLine, FilledLine, Starts, SeriesV, SeriesValues;
    hide StepsAfter, ColumnsOf, Pairs, PairFor, JoinedLine, Agrees, Marked;
    var starts, columns := Starts(q.bucket.value, scope, env), ColumnsOf(q.aggregations);
    var measured := RawLines(q, LinesOf(q, gs, rows, env));
    LinesFit(q, gs, rows, env);
    GroupsMarked(q, gs, measured, rows, env);
    SeriesMeans(ps, q.bucket.value, scope, all, env);
    PairsAre(starts, measured, gs);
    var pairs := Pairs(starts, measured);
    ColumnsDiffer(q.aggregations);
    joined := seq(|order|, i requires 0 <= i < |order| => JoinedRaw(pairs[order[i]], columns));
    forall i | 0 <= i < |order|
      ensures JoinedLine(joined[i], pairs[order[i]], columns)
      ensures Agrees(joined[i], FilledLine(q, starts[order[i]], rows, env), q)
    {
      JoinedHolds(pairs[order[i]], columns);
      JoinedAgrees(joined[i], pairs[order[i]], q, starts[order[i]], measured, gs, rows, env);
    }
  }

  // ---------------------------------------------------------------------------
  // The whole of it
  // ---------------------------------------------------------------------------

  lemma SimpleAnswered(core: Core, n: Option<nat>, q: Query, scope: Scope, all: seq<V>, table: seq<Row>,
                       raws: seq<RawRow>, env: Env)
    requires q.aggregations != [] && !Set(q.fill) && CoreMeans(core, q, scope, all, env) && BoundAt(n, q.limit, all)
    requires LimitOk(q.limit)
    requires (forall o | o in OrdersOf(q) :: Has(q, o.key))
    requires Returns(Simple(core, Finish(TermsOf(OrdersOf(q)), n)), all, table, env, raws)
    ensures IsAnswer(q, scope, table, env, R.DecodeAll(raws, q, env))
  {
    hide CoreMeans, Measures, Sorted, CutOff, Lines, Arranged, R.DecodeAll, TermsOf, Limited, OrdersOf, BoundAt, Has;
    var lines :| Measures(core, all, table, env, lines) && Sorted(TermsOf(OrdersOf(q)), lines, env) && CutOff(n, all, lines) == Some(raws);
    SimpleLines(core, q, scope, all, table, lines, env);
    CutMeans(n, q, all, lines, raws, env);
  }

  lemma FilledAnswered(core: Core, ps: seq<V>, n: Option<nat>, q: Query, scope: Scope, all: seq<V>, table: seq<Row>,
                       raws: seq<RawRow>, env: Env)
    requires ShapeOk(q) && Set(q.fill) && CoreMeans(core, q, scope, all, env) && BoundAt(n, q.limit, all)
    requires ps + SeriesValues(q.bucket.value, scope) <= all && forall o | o in OrdersOf(q) :: Has(q, o.key)
    requires Returns(Filled(StepsAfter(|ps|), core, ColumnsOf(q.aggregations), Finish(TermsOf(OrdersOf(q)), n)), all, table, env, raws)
    ensures IsAnswer(q, scope, table, env, R.DecodeAll(raws, q, env))
  {
    hide CoreMeans, Measures, Joins, Sorted, CutOff, Lines, Arranged, R.DecodeAll, TermsOf, Limited, OrdersOf, BoundAt, Has;
    hide StepsAfter, ColumnsOf, SeriesValues;
    var measured, lines :|
      && Measures(core, all, table, env, measured)
      && Joins(StepsAfter(|ps|), ColumnsOf(q.aggregations), all, measured, env, lines)
      && Sorted(TermsOf(OrdersOf(q)), lines, env) && CutOff(n, all, lines) == Some(raws);
    FilledLines(core, q, scope, ps, all, table, measured, lines, env);
    CutMeans(n, q, all, lines, raws, env);
  }

  /** What a database may give back for a statement, decoded. */
  ghost predicate Answered(st: Statement, ps: seq<V>, q: Query, table: seq<Row>, env: Env, out: seq<QueryRow>) {
    exists raws :: Returns(st, ps, table, env, raws) && R.DecodeAll(raws, q, env) == out
  }

  /**
   * For every query, scope and table: the compiled statement, read by its own
   * words and worked on by a database, is answered with exactly what may answer
   * the query.
   */
  lemma StatementAnswers(q: Query, scope: Scope, env: Env, table: seq<Row>, out: seq<QueryRow>) returns (st: Statement)
    requires Compile(q, scope, env).Some?
    ensures q.aggregations != []
    ensures var d := Compile(q, scope, env).value;
            && ReadStatement(d.ts) == Some(st)
            && (Answered(st, d.ps, q, table, env, out) <==> IsAnswer(q, scope, table, env, out))
  {
    hide MeasuredText, OrderText, FillText, LimitClause, Returns, IsAnswer;
    hide ReadStatement, R.DecodeAll, CoreMeans, BoundAt, Has, OrdersOf;
    hide TermsOf, StepsAfter, ColumnsOf, SeriesValues;
    var d := Compile(q, scope, env).value;
    if Set(q.fill) {
      var core, ps, n := FilledRead(q, scope, env);
      st := Filled(StepsAfter(|ps|), core, ColumnsOf(q.aggregations), Finish(TermsOf(OrdersOf(q)), n));
      if Answered(st, d.ps, q, table, env, out) {
        var raws :| Returns(st, d.ps, table, env, raws) && R.DecodeAll(raws, q, env) == out;
        FilledAnswered(core, ps, n, q, scope, d.ps, table, raws, env);
      }
      if IsAnswer(q, scope, table, env, out) { var raws := FilledReached(core, ps, n, q, scope, d.ps, table, out, env); }
    } else {
      var core, n := SimpleRead(q, scope, env);
      st := Simple(core, Finish(TermsOf(OrdersOf(q)), n));
      if Answered(st, d.ps, q, table, env, out) {
        var raws :| Returns(st, d.ps, table, env, raws) && R.DecodeAll(raws, q, env) == out;
        SimpleAnswered(core, n, q, scope, d.ps, table, raws, env);
      }
      if IsAnswer(q, scope, table, env, out) { var raws := SimpleReached(core, n, q, scope, d.ps, table, out, env); }
    }
  }

  /** What the database hands over for a statement it can read is something it may, over this table. */
  ghost predicate Truthful(db: R.Database, d: Draft, table: seq<Row>, env: Env) {
    ReadStatement(d.ts).Some? ==> Returns(ReadStatement(d.ts).value, d.ps, table, env, db(d))
  }

  /** So it does for the statement of this query, if it has one. */
  ghost predicate TruthfulFor(db: R.Database, q: Query, scope: Scope, table: seq<Row>, env: Env) {
    match Compile(q, scope, env) case None => true case Some(d) => Truthful(db, d, table, env)
  }

  /** So what one query is given on its own is an answer to it. */
  lemma AnswerIsAnswer(db: R.Database, q: Query, scope: Scope, env: Env, table: seq<Row>)
    requires R.Answer(db, q, scope, env).Some? && TruthfulFor(db, q, scope, table, env)
    ensures q.aggregations != []
    ensures IsAnswer(q, scope, table, env, R.Answer(db, q, scope, env).value)
  {
    hide Compile, Returns, IsAnswer, R.DecodeAll, ReadStatement;
    var d, out := Compile(q, scope, env).value, R.Answer(db, q, scope, env).value;
    var st := StatementAnswers(q, scope, env, table, out);
    assert Answered(st, d.ps, q, table, env, out);
  }

  /**
   * A round of queries: what is filed under a key that stands for one query is an
   * answer to that query, over the rows of the table and by the query alone.
   */
  lemma FiledAnswers(out: map<R.Key, seq<QueryRow>>, requests: seq<R.Request>, db: R.Database, scope: Scope, env: Env,
                     r: R.Request, table: seq<Row>)
    requires R.Filed(out, requests, db, scope, env) && r in requests && r.key in out
    requires forall x, y | x in requests && y in requests && x.key == y.key :: x.query == y.query
    requires TruthfulFor(db, r.query, scope, table, env)
    ensures r.query.aggregations != [] && IsAnswer(r.query, scope, table, env, out[r.key])
  {
    hide Compile, Returns, IsAnswer, R.DecodeAll, ReadStatement;
    R.FiledIsOwn(out, requests, db, scope, env, r);
    AnswerIsAnswer(db, r.query, scope, env, table);
  }
}
