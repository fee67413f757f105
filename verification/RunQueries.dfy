/** Running a board's queries: one statement each, shared where the text and parameters agree, every answer filed. */
module RunQueries {
  import opened Sequences
  import opened Filters
  import opened Sql
  import opened Compiler
  import opened Statements
  import opened CompilerProof
  import opened Answers
  import opened Select
  import QueryJson

  // ---------------------------------------------------------------------------
  // No statement reads past its scope
  // ---------------------------------------------------------------------------

  const FROM := Word(" FROM \"log_entries\" WHERE ")

  /** Where the WHERE clause sits in a statement: right after the table, and before grouping only. */
  ghost predicate Clause(ts: seq<Tok>, before: seq<Tok>, w: seq<Token>, after: seq<Tok>) {
    && ts == before + [FROM] + Lift(w) + after
    && (after == [] || after[0] in {Word(" GROUP BY "), Word(" ORDER BY "), Word(" LIMIT "), Word(") SELECT b.bucket")})
  }

  /** `measured` and `Compile` agree on what stands before and after the clause. */
  lemma ClauseOf(q: Query, scope: Scope, env: Env) returns (before: seq<Tok>, w: Emit, after: seq<Tok>, selected: seq<V>)
    requires Compile(q, scope, env).Some?
    ensures Where(scope, selected, q.filter, env) == Some(w)
    ensures Clause(Compile(q, scope, env).value.ts, before, w.ts, after)
    ensures w.ps <= Compile(q, scope, env).value.ps
  {
    hide SelectList, Where, GroupClause, Joined, OrderText, SeriesText, FilledColumns;
    var s := ScopeExpr(scope);
    var sel := SelectList(q, s.ps).value;
    selected := sel.ps[|s.ps|..];
    w := Where(scope, selected, q.filter, env).value;
    var order := OrderText(q, if Set(q.fill) then 0 else |OrNone(q.groupBy)|).value;
    var head := [Word("SELECT ")] + Joined(sel.items);
    var m := MeasuredText(q, scope, env).value;
    assert m.ts == head + [FROM] + Lift(w.ts) + GroupClause(q);
    if Set(q.fill) {
      var n := |m.ps|;
      before := SeriesText(n) + head;
      var columns := [Word(") SELECT b.bucket"), AsBucket] + FilledColumns(q.aggregations);
      var ps := m.ps + SeriesValues(q.bucket.value, scope);
      var tail := [Word(" FROM buckets b LEFT JOIN measured m ON m.bucket = b.bucket")] + OrderClause(order) + LimitClause(q.limit, ps).ts;
      after := GroupClause(q) + (columns + tail);
      Regroup(SeriesText(n), head + [FROM] + Lift(w.ts), GroupClause(q), columns, tail);
      Assoc(SeriesText(n), head + [FROM], Lift(w.ts));
      Assoc(SeriesText(n), head, [FROM]);
      GroupClauseHead(q);
    } else {
      before := head;
      var limit := LimitClause(q.limit, m.ps);
      after := GroupClause(q) + (OrderClause(order) + limit.ts);
      Regroup([], head + [FROM] + Lift(w.ts), GroupClause(q), OrderClause(order), limit.ts);
      assert [] + m.ts == m.ts && [] + (head + [FROM] + Lift(w.ts)) == head + [FROM] + Lift(w.ts);
      GroupClauseHead(q);
    }
  }

  lemma Regroup<T>(a: seq<T>, b: seq<T>, c: seq<T>, d: seq<T>, e: seq<T>)
    ensures a + (b + c) + d + e == (a + b) + (c + (d + e))
  {
    Assoc(a, b, c);
    Assoc(a + b + c, d, e);
    Assoc(a + b, c, d + e);
  }

  lemma GroupClauseHead(q: Query)
    ensures GroupClause(q) == [] || GroupClause(q)[0] == Word(" GROUP BY ")
  {
  }

  /**
   * Every statement a query compiles to, filled or not, reads exactly the rows
   * that are in the project, in the window, and meet the query's filter.
   */
  lemma StatementReads(q: Query, scope: Scope, env: Env, row: Row)
    returns (before: seq<Tok>, w: seq<Token>, after: seq<Tok>, t: Expr)
    requires Compile(q, scope, env).Some?
    ensures var d := Compile(q, scope, env).value;
            && Clause(d.ts, before, w, after) && Parse(w, 0) == Some((t, []))
            && (Eval(t, d.ps, row, env) == VBool(true) <==>
                InScope(scope, row) && (q.filter.Some? ==> Meaning(q.filter.value, row, env) == T))
  {
    hide Compile, Meaning, Parse, Eval, Clause, InScope;
    var e: Emit, selected: seq<V>;
    before, e, after, selected := ClauseOf(q, scope, env);
    w := e.ts;
    var ps := Compile(q, scope, env).value.ps;
    if q.filter.Some? {
      t := WhereMeans(scope, selected, q.filter.value, env);
      assert Eval(t, ps, row, env) == OfTri(And3(Truth(InScope(scope, row)), Meaning(q.filter.value, row, env)));
    } else {
      t := ScopeTree();
      ScopeBuilt(scope);
      Whole(t, ScopeExpr(scope));
      ScopeReads(scope, ps, row, env);
    }
  }

  /**
   * The generated series and the measured query truncate alike: one unit and one
   * zone, the window's own ends, and a step of that unit. The join is on the
   * same instants.
   */
  lemma FilledOnOneGrid(q: Query, scope: Scope, env: Env) returns (n: nat)
    requires Compile(q, scope, env).Some? && Set(q.fill)
    ensures var d := Compile(q, scope, env).value;
            var bucket := BucketText(q.bucket.value, ScopeExpr(scope).ps).ts;
            && SeriesText(n) + [Word("SELECT ")] + bucket <= d.ts
            && Resolved(SeriesText(n), d.ps) == SeriesPieces(q.bucket.value, scope)
            && Resolved(bucket, d.ps) == BucketPieces(q.bucket.value)
  {
    hide SelectList, Where, GroupClause, Joined, OrderText, SeriesText, FilledColumns;
    hide BucketText, Resolved, SeriesPieces, BucketPieces, ScopeExpr;
    var s, b := ScopeExpr(scope), q.bucket.value;
    var m, d := MeasuredText(q, scope, env).value, Compile(q, scope, env).value;
    n := |m.ps|;
    BucketFirst(q, s.ps);
    var sel := SelectList(q, s.ps).value;
    var w := Where(scope, sel.ps[|s.ps|..], q.filter, env).value;
    WhereExtends(scope, sel.ps[|s.ps|..], q.filter, env);
    assert s.ps + sel.ps[|s.ps|..] == sel.ps;
    assert [Word("SELECT ")] + BucketText(b, s.ps).ts <= m.ts;
    SeriesResolved(m.ps, b, scope, d.ps);
    BucketResolved(b, s.ps, d.ps);
    PrefixOfFill(SeriesText(n), [Word("SELECT ")] + BucketText(b, s.ps).ts, m.ts, d.ts);
  }

  lemma PrefixOfFill<T>(series: seq<T>, head: seq<T>, measured: seq<T>, whole: seq<T>)
    requires head <= measured && series + measured <= whole
    ensures series + head <= whole
  {
  }

  /** The filter binds after whatever the select list bound. */
  lemma WhereExtends(scope: Scope, selected: seq<V>, filter: Option<Filter>, env: Env)
    requires Where(scope, selected, filter, env).Some?
    ensures ScopeExpr(scope).ps + selected <= Where(scope, selected, filter, env).value.ps
  {
    hide CompileFilter, ScopeExpr;
    if filter.Some? {
      hide Meaning, Eval, Render, WellBound, Prec;
      var t := FilterFaithful(filter.value, ScopeExpr(scope).ps + selected, 0, env);
    }
  }

  // ---------------------------------------------------------------------------
  // Decoding
  // ---------------------------------------------------------------------------

  function Number(v: Raw, env: Env): Option<real> {
    match v
    case RNull => None
    case RNum(n) => Some(n)
    case RText(s) => Some(env.toNumber(s))
    case RTime(t) => Some(t as real)
  }

  function Text(v: Raw, env: Env): Option<string> {
    match v
    case RNull => None
    case RText(s) => Some(s)
    case RNum(n) => Some(env.numText(n))
    case RTime(t) => Some(env.timeText(t))
  }

  function Decode(raw: RawRow, q: Query, env: Env): QueryRow {
    QueryRow(
      if q.bucket.Some? && At(raw, AsBucket).RTime? then Some(At(raw, AsBucket).t) else None,
      seq(|OrNone(q.groupBy)|, i requires 0 <= i => Text(At(raw, AsGroup(i)), env)),
      seq(|q.aggregations|, i requires 0 <= i => Number(At(raw, AsValue(i)), env)),
      if Set(q.withTotal) then Some(Number(At(raw, AsTotal), env)) else None)
  }

  function DecodeAll(rows: seq<RawRow>, q: Query, env: Env): seq<QueryRow> {
    seq(|rows|, i requires 0 <= i < |rows| => Decode(rows[i], q, env))
  }

  lemma SameShapeSameDecode(rows: seq<RawRow>, a: Query, b: Query, env: Env)
    requires ShapeOf(a) == ShapeOf(b)
    ensures DecodeAll(rows, a, env) == DecodeAll(rows, b, env)
  {
    forall i | 0 <= i < |rows|
      ensures Decode(rows[i], a, env) == Decode(rows[i], b, env)
    {
      assert Decode(rows[i], a, env).group == Decode(rows[i], b, env).group;
      assert Decode(rows[i], a, env).value == Decode(rows[i], b, env).value;
    }
  }

  // ---------------------------------------------------------------------------
  // One round of queries
  // ---------------------------------------------------------------------------

  type Key = QueryJson.Key

  datatype Request = Request(key: Key, query: Query)

  /** A database is whatever it answers to a text and its parameters. */
  type Database = Draft -> seq<RawRow>

  /** What `runQuery` gives one query on its own. */
  function Answer(db: Database, q: Query, scope: Scope, env: Env): Option<seq<QueryRow>> {
    match Compile(q, scope, env)
    case None => None
    case Some(d) => Some(DecodeAll(db(d), q, env))
  }

  /** Two queries with one statement have one answer: sharing the round trip is invisible. */
  lemma SharedAnswer(db: Database, a: Query, b: Query, scope: Scope, env: Env)
    requires Compile(a, scope, env).Some? && Compile(a, scope, env) == Compile(b, scope, env)
    ensures Answer(db, a, scope, env) == Answer(db, b, scope, env)
  {
    hide Compile, DecodeAll;
    SameTextSameShape(a, b, scope, scope, env);
    SameShapeSameDecode(db(Compile(a, scope, env).value), a, b, env);
  }

  datatype Job = Job(query: Query, keys: seq<Key>)

  /** The jobs so far hold every request so far, each under its own statement. */
  ghost predicate Collected(order: seq<Draft>, jobs: map<Draft, Job>, done: seq<Request>, scope: Scope, env: Env) {
    && (forall d :: d in order <==> d in jobs)
    && (forall d | d in jobs :: Compile(jobs[d].query, scope, env) == Some(d))
    && (forall d, k | d in jobs && k in jobs[d].keys ::
          exists r | r in done :: r.key == k && Compile(r.query, scope, env) == Some(d))
    && (forall r | r in done :: Compile(r.query, scope, env).Some? &&
          Compile(r.query, scope, env).value in jobs && r.key in jobs[Compile(r.query, scope, env).value].keys)
  }

  lemma CollectedStep(order: seq<Draft>, jobs: map<Draft, Job>, done: seq<Request>, r: Request, scope: Scope, env: Env)
    requires Collected(order, jobs, done, scope, env) && Compile(r.query, scope, env).Some?
    ensures var d := Compile(r.query, scope, env).value;
            var job := if d in jobs then jobs[d].(keys := jobs[d].keys + [r.key]) else Job(r.query, [r.key]);
            Collected(if d in jobs then order else order + [d], jobs[d := job], done + [r], scope, env)
  {
    hide Compile;
    var d := Compile(r.query, scope, env).value;
    var job := if d in jobs then jobs[d].(keys := jobs[d].keys + [r.key]) else Job(r.query, [r.key]);
    var jobs' := jobs[d := job];
    forall e, k | e in jobs' && k in jobs'[e].keys
      ensures exists x | x in done + [r] :: x.key == k && Compile(x.query, scope, env) == Some(e)
    {
      if e in jobs && k in jobs[e].keys {
        var x :| x in done && x.key == k && Compile(x.query, scope, env) == Some(e);
        assert x in done + [r];
      } else {
        assert r in done + [r];
      }
    }
  }

  /** The answer filed under a key is the one some request with that key would get on its own. */
  ghost predicate Filed(out: map<Key, seq<QueryRow>>, requests: seq<Request>, db: Database, scope: Scope, env: Env) {
    forall k | k in out :: exists r | r in requests :: r.key == k && Answer(db, r.query, scope, env) == Some(out[k])
  }

  /** None where a request does not compile: one bad card fails the round. */
  method Run(db: Database, requests: seq<Request>, scope: Scope, env: Env) returns (result: Option<map<Key, seq<QueryRow>>>)
    ensures result.None? <==> exists r | r in requests :: Compile(r.query, scope, env).None?
    ensures result.Some? ==> Filed(result.value, requests, db, scope, env)
    ensures result.Some? ==> forall r | r in requests :: r.key in result.value
  {
    hide Compile, DecodeAll;
    var order: seq<Draft>, jobs: map<Draft, Job> := [], map[];
    for i := 0 to |requests|
      invariant Collected(order, jobs, requests[..i], scope, env)
    {
      var r := requests[i];
      var compiled := Compile(r.query, scope, env);
      if compiled.None? {
        assert r in requests;
        return None;
      }
      CollectedStep(order, jobs, requests[..i], r, scope, env);
      assert requests[..i + 1] == requests[..i] + [r];
      if compiled.value in jobs {
        jobs := jobs[compiled.value := jobs[compiled.value].(keys := jobs[compiled.value].keys + [r.key])];
      } else {
        order := order + [compiled.value];
        jobs := jobs[compiled.value := Job(r.query, [r.key])];
      }
    }
    assert requests[..|requests|] == requests;
    var out := File(db, order, jobs, requests, scope, env);
    return Some(out);
  }

  method File(db: Database, order: seq<Draft>, jobs: map<Draft, Job>, ghost requests: seq<Request>, ghost scope: Scope, env: Env)
    returns (out: map<Key, seq<QueryRow>>)
    requires Collected(order, jobs, requests, scope, env)
    ensures Filed(out, requests, db, scope, env)
    ensures forall r | r in requests :: r.key in out
  {
    hide Compile, DecodeAll, Answer;
    out := map[];
    for i := 0 to |order|
      invariant Filed(out, requests, db, scope, env)
      invariant forall j, k | 0 <= j < i && order[j] in jobs && k in jobs[order[j]].keys :: k in out
    {
      var d := order[i];
      assert d in order;
      var answer := DecodeAll(db(d), jobs[d].query, env);
      ghost var before := out;
      for j := 0 to |jobs[d].keys|
        invariant Filed(out, requests, db, scope, env)
        invariant forall k | k in before :: k in out
        invariant forall m | 0 <= m < j :: jobs[d].keys[m] in out
      {
        var key := jobs[d].keys[j];
        JobAnswers(db, jobs, d, key, requests, order, scope, env);
        out := out[key := answer];
      }
    }
  }

  /** A job's answer is the answer of each request whose key it holds. */
  lemma JobAnswers(db: Database, jobs: map<Draft, Job>, d: Draft, key: Key,
                   requests: seq<Request>, order: seq<Draft>, scope: Scope, env: Env)
    requires Collected(order, jobs, requests, scope, env) && d in jobs && key in jobs[d].keys
    ensures exists r | r in requests ::
              r.key == key && Answer(db, r.query, scope, env) == Some(DecodeAll(db(d), jobs[d].query, env))
  {
    hide Compile, DecodeAll;
    var r :| r in requests && r.key == key && Compile(r.query, scope, env) == Some(d);
    SharedAnswer(db, r.query, jobs[d].query, scope, env);
  }

  /** Where a key stands for one query, what is filed under it is that query's own answer. */
  lemma FiledIsOwn(out: map<Key, seq<QueryRow>>, requests: seq<Request>, db: Database, scope: Scope, env: Env, r: Request)
    requires Filed(out, requests, db, scope, env) && r in requests && r.key in out
    requires forall x, y | x in requests && y in requests && x.key == y.key :: x.query == y.query
    ensures Answer(db, r.query, scope, env) == Some(out[r.key])
  {
    hide Answer;
  }
}
