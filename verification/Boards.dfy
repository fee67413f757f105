/**
 * A board: cards that are saved queries, read in one of two worlds. What it
 * fetches and what its cards look up are derived by the same functions.
 */
module Boards {
  import opened Sequences
  import opened Json
  import opened Filters
  import opened Sql
  import opened Compiler
  import opened Statements
  import opened CompilerProof
  import opened RunQueries
  import opened QueryJson
  import Answers
  import StatementProof

  const TEST := "firstrun.test"
  const MAX_FILTER_BRANCHES := 32
  const MAX_SCALAR_STRING := 4096
  const MAX_ORDERS := 4

  /** A board's standing filter, and whether it shows test rows or the others. */
  datatype Frame = Frame(filter: Filter, testMode: bool)

  datatype Widget = QueryWidget(number: bool, query: Query, compare: bool, sparkline: bool) | NoteWidget(body: string)

  // ---------------------------------------------------------------------------
  // The frame
  // ---------------------------------------------------------------------------

  const IS_TEST := Eq(Attribute([TEST], None), SBool(true))

  function TestFrame(testMode: bool): Filter { if testMode then IS_TEST else Not(IS_TEST) }

  /** Marked with exactly JSON `true`. */
  predicate TestRow(row: Row) { TEST in row.attributes && row.attributes[TEST] == JBool(true) }

  /** Each frame is never unknown, and the two divide all rows between them. */
  lemma FramesPartition(row: Row, env: Env)
    ensures Meaning(TestFrame(true), row, env) == Truth(TestRow(row))
    ensures Meaning(TestFrame(false), row, env) == Truth(!TestRow(row))
  {
    assert [TEST][1..] == [];
    assert Walk(JObj(row.attributes), [TEST]) == if TEST in row.attributes then Some(row.attributes[TEST]) else None;
  }

  /** An empty AND is no constraint. */
  predicate Constrains(f: Option<Filter>) { f.Some? && f.value != All([]) }

  function Parts(frame: Frame, own: Option<Filter>): seq<Filter> {
    [TestFrame(frame.testMode)] + (if Constrains(Some(frame.filter)) then [frame.filter] else []) +
    (if Constrains(own) then [own.value] else [])
  }

  function EffectiveFilter(frame: Frame, own: Option<Filter>): Filter {
    var parts := Parts(frame, own);
    if |parts| == 1 then parts[0] else All(parts)
  }

  /** The query a card ends up asking: its own, under its board's frame and standing filter. */
  function EffectiveQuery(frame: Frame, q: Query): Query { q.(filter := Some(EffectiveFilter(frame, q.filter))) }

  lemma {:induction false} AllHolds(fs: seq<Filter>, row: Row, env: Env)
    ensures AllMeaning(fs, row, env) == T <==> forall i | 0 <= i < |fs| :: Meaning(fs[i], row, env) == T
    decreases |fs|
  {
    if fs != [] {
      hide Meaning;
      AllHolds(Front(fs), row, env);
      assert fs == Front(fs) + [Last(fs)];
      AllStep(fs, row, env);
    }
  }

  lemma AllStep(fs: seq<Filter>, row: Row, env: Env)
    requires fs != []
    ensures AllMeaning(fs, row, env) == And3(AllMeaning(Front(fs), row, env), Meaning(Last(fs), row, env))
  {
  }

  lemma PartsHold(frame: Frame, own: Option<Filter>, row: Row, env: Env)
    ensures (forall i | 0 <= i < |Parts(frame, own)| :: Meaning(Parts(frame, own)[i], row, env) == T) <==>
            && Meaning(TestFrame(frame.testMode), row, env) == T
            && (Constrains(Some(frame.filter)) ==> Meaning(frame.filter, row, env) == T)
            && (Constrains(own) ==> Meaning(own.value, row, env) == T)
  {
    hide Meaning, TestFrame;
    var parts := Parts(frame, own);
    assert parts[0] == TestFrame(frame.testMode);
    assert Constrains(Some(frame.filter)) ==> parts[1] == frame.filter;
    assert Constrains(own) ==> parts[|parts| - 1] == own.value;
  }

  /** A card shows a row exactly when it is in the board's world and meets both filters. */
  lemma EffectiveMeans(frame: Frame, q: Query, row: Row, env: Env)
    ensures Meaning(EffectiveQuery(frame, q).filter.value, row, env) == T <==>
            && TestRow(row) == frame.testMode
            && Meaning(frame.filter, row, env) == T
            && (q.filter.Some? ==> Meaning(q.filter.value, row, env) == T)
  {
    hide TestFrame, TestRow, Meaning, Parts, EffectiveFilter;
    FramesPartition(row, env);
    AllHolds(Parts(frame, q.filter), row, env);
    PartsHold(frame, q.filter, row, env);
    EmptyMeans(row, env);
    WholeMeans(frame, q.filter, row, env);
  }

  lemma EmptyMeans(row: Row, env: Env)
    ensures Meaning(All([]), row, env) == T
  {
    assert AllMeaning([], row, env) == T;
  }

  /** A single part stands for itself, more stand for their AND. */
  lemma WholeMeans(frame: Frame, own: Option<Filter>, row: Row, env: Env)
    ensures Meaning(EffectiveFilter(frame, own), row, env) == T <==> AllMeaning(Parts(frame, own), row, env) == T
  {
    hide Parts;
    var parts := Parts(frame, own);
    if |parts| == 1 {
      AllHolds(parts, row, env);
    } else {
      assert Meaning(All(parts), row, env) == AllMeaning(parts, row, env);
    }
  }

  /** No arrangement of filters makes a card's statement read the other world, or past the project and window. */
  lemma CardSeesOneWorld(frame: Frame, q: Query, scope: Scope, env: Env, row: Row)
    returns (before: seq<Tok>, w: seq<Token>, after: seq<Tok>, t: Expr)
    requires Compile(EffectiveQuery(frame, q), scope, env).Some?
    ensures var d := Compile(EffectiveQuery(frame, q), scope, env).value;
            && Clause(d.ts, before, w, after) && Parse(w, 0) == Some((t, []))
            && (Eval(t, d.ps, row, env) == VBool(true) <==>
                && InScope(scope, row) && TestRow(row) == frame.testMode
                && Meaning(frame.filter, row, env) == T
                && (q.filter.Some? ==> Meaning(q.filter.value, row, env) == T))
  {
    hide Compile, Meaning, Parse, Eval, Clause, InScope, TestRow, EffectiveFilter;
    before, w, after, t := StatementReads(EffectiveQuery(frame, q), scope, env, row);
    EffectiveMeans(frame, q, row, env);
  }

  // ---------------------------------------------------------------------------
  // What the schema accepts always compiles
  // ---------------------------------------------------------------------------

  function Depth(f: Filter): (n: nat)
    ensures n >= 1
    decreases f
  {
    match f
    case All(fs) => 1 + DepthAll(fs)
    case Any(fs) => 1 + DepthAll(fs)
    case Not(g) => 1 + Depth(g)
    case _ => 1
  }

  function DepthAll(fs: seq<Filter>): nat
    decreases fs
  {
    if fs == [] then 0 else Max(DepthAll(Front(fs)), Depth(Last(fs)))
  }

  predicate LeafOk(f: Filter) {
    match f
    case Eq(field, _) => FieldOk(field)
    case Ne(field, _) => FieldOk(field)
    case In(field, vs) => FieldOk(field) && |vs| <= MAX_IN_VALUES
    case NotIn(field, vs) => FieldOk(field) && |vs| <= MAX_IN_VALUES
    case Compare(_, field, _) => FieldOk(field)
    case Match(_, field, _) => FieldOk(field)
    case Exists(field) => FieldOk(field)
    case NotExists(field) => FieldOk(field)
    case _ => false
  }

  predicate LeavesOk(f: Filter)
    decreases f
  {
    match f
    case All(fs) => AllLeavesOk(fs)
    case Any(fs) => AllLeavesOk(fs)
    case Not(g) => LeavesOk(g)
    case _ => LeafOk(f)
  }

  predicate AllLeavesOk(fs: seq<Filter>)
    decreases fs
  {
    fs == [] || (AllLeavesOk(Front(fs)) && LeavesOk(Last(fs)))
  }

  /** A filter compiles exactly when its leaves are well formed and it nests no more than nine levels from there. */
  lemma {:induction false} CompilesIff(f: Filter, ps: seq<V>, depth: nat, env: Env)
    ensures CompileFilter(f, ps, depth, env).Some? <==> depth + Depth(f) <= MAX_FILTER_DEPTH + 1 && LeavesOk(f)
    decreases f, 1
  {
    hide EqExpr, InExpr, CompareExpr, MatchExpr, ExistsExpr, FieldOk;
    match f
    case All(fs) => if fs != [] { AllCompileIff(fs, AndOp, ps, depth + 1, env); }
    case Any(fs) => if fs != [] { AllCompileIff(fs, OrOp, ps, depth + 1, env); }
    case Not(g) => CompilesIff(g, ps, depth + 1, env);
    case _ =>
  }

  lemma {:induction false} AllCompileIff(fs: seq<Filter>, op: Op, ps: seq<V>, depth: nat, env: Env)
    requires fs != []
    ensures CompileAll(fs, op, ps, depth, env).Some? <==> depth + DepthAll(fs) <= MAX_FILTER_DEPTH + 1 && AllLeavesOk(fs)
    decreases fs, 0
  {
    hide CompileFilter, Depth, LeavesOk;
    if |fs| == 1 {
      assert Front(fs) == [] && DepthAll(Front(fs)) == 0 && AllLeavesOk(Front(fs));
      CompilesIff(fs[0], ps, depth, env);
    } else {
      AllCompileIff(Front(fs), op, ps, depth, env);
      var before := CompileAll(Front(fs), op, ps, depth, env);
      if before.Some? { CompilesIff(Last(fs), before.value.ps, depth, env); }
    }
  }

  predicate ScalarAccepted(v: Value) { v.SStr? ==> |v.s| <= MAX_SCALAR_STRING }

  predicate LeafAccepted(f: Filter) {
    && LeafOk(f)
    && (f.Eq? || f.Ne? ==> ScalarAccepted(f.value))
    && (f.In? || f.NotIn? ==> forall v | v in f.values :: ScalarAccepted(v))
    && (f.Compare? ==> (f.value.SStr? || f.value.SNum?) && ScalarAccepted(f.value))
    && (f.Match? ==> |f.text| <= MAX_SCALAR_STRING)
  }

  /** The filter schema, built one level at a time. */
  predicate FilterAccepted(f: Filter, depth: nat)
    decreases f
  {
    match f
    case All(fs) => depth > 1 && |fs| <= MAX_FILTER_BRANCHES && AllAccepted(fs, depth - 1)
    case Any(fs) => depth > 1 && |fs| <= MAX_FILTER_BRANCHES && AllAccepted(fs, depth - 1)
    case Not(g) => depth > 1 && FilterAccepted(g, depth - 1)
    case _ => LeafAccepted(f)
  }

  predicate AllAccepted(fs: seq<Filter>, depth: nat)
    decreases fs
  {
    fs == [] || (AllAccepted(Front(fs), depth) && FilterAccepted(Last(fs), depth))
  }

  /** What the schema accepts at a depth is no deeper than it, but for an empty group, which costs one level either way. */
  lemma {:induction false} AcceptedFits(f: Filter, depth: nat)
    requires FilterAccepted(f, depth) && depth >= 1
    ensures Depth(f) <= depth && LeavesOk(f)
    decreases f, 1
  {
    match f
    case All(fs) => AllAcceptedFit(fs, depth - 1);
    case Any(fs) => AllAcceptedFit(fs, depth - 1);
    case Not(g) => AcceptedFits(g, depth - 1);
    case _ =>
  }

  lemma {:induction false} AllAcceptedFit(fs: seq<Filter>, depth: nat)
    requires AllAccepted(fs, depth) && depth >= 1
    ensures DepthAll(fs) <= depth && AllLeavesOk(fs)
    decreases fs, 0
  {
    if fs != [] {
      AllAcceptedFit(Front(fs), depth);
      AcceptedFits(Last(fs), depth);
    }
  }

  predicate AggregationAccepted(a: Aggregation) {
    match a
    case Count => true
    case CountDistinct(f) => FieldOk(f)
    case Of(_, f) => FieldOk(f) && Numeric(f)
    case Percentile(f, p) => FieldOk(f) && Numeric(f) && 0.0 <= p <= 1.0
  }

  predicate ZoneChar(c: char) {
    'A' <= c <= 'Z' || 'a' <= c <= 'z' || '0' <= c <= '9' || c == '_' || c == '+' || c == '-' || c == '/'
  }

  predicate OrderAccepted(o: Ordering, q: Query) {
    match o.key
    case ByBucket => q.bucket.Some?
    case ByGroup(i) => 0 <= i < |OrNone(q.groupBy)|
    case ByAggregate(i) => 0 <= i < |q.aggregations|
  }

  /** The query schema and its refinements. */
  predicate QueryAccepted(q: Query) {
    && (q.filter.Some? ==> FilterAccepted(q.filter.value, MAX_FILTER_DEPTH))
    && |OrNone(q.groupBy)| <= MAX_GROUPS && (forall f | f in OrNone(q.groupBy) :: FieldOk(f))
    && 1 <= |q.aggregations| <= MAX_AGGREGATIONS && (forall a | a in q.aggregations :: AggregationAccepted(a))
    && (q.bucket.Some? ==> BucketOk(q.bucket.value) && forall c | c in q.bucket.value.timezone :: ZoneChar(c))
    && |OrNone(q.orderBy)| <= MAX_ORDERS && (forall o | o in OrNone(q.orderBy) :: OrderAccepted(o, q))
    && LimitOk(q.limit)
    && (Set(q.fill) ==> q.bucket.Some? && OrNone(q.groupBy) == [] && !Set(q.withTotal))
  }

  lemma {:induction false} GroupsCompile(s: Selected, groups: seq<Field>)
    ensures PushGroups(s, groups).Some? <==> forall f | f in groups :: FieldOk(f)
    decreases |groups|
  {
    hide FieldOk, TextExpr;
    if groups != [] {
      assert groups == Front(groups) + [Last(groups)];
      GroupsCompile(s, Front(groups));
    }
  }

  lemma {:induction false} ValuesCompile(s: Selected, aggregations: seq<Aggregation>)
    ensures PushValues(s, aggregations).Some? <==> forall a | a in aggregations :: AggregationAccepted(a)
    decreases |aggregations|
  {
    hide AggregationAccepted, AggregateText;
    if aggregations != [] {
      assert aggregations == Front(aggregations) + [Last(aggregations)];
      ValuesCompile(s, Front(aggregations));
      if PushValues(s, Front(aggregations)).Some? {
        AggregateCompiles(Last(aggregations), PushValues(s, Front(aggregations)).value.ps);
      }
    }
  }

  lemma AggregateCompiles(a: Aggregation, ps: seq<V>)
    ensures AggregateText(a, ps).Some? <==> AggregationAccepted(a)
  {
    hide FieldOk, TextExpr, NumberText;
  }

  lemma {:induction false} OrdersCompile(os: seq<Ordering>, q: Query)
    ensures OrderItems(os, q, |OrNone(q.groupBy)|).Some? <==> forall o | o in os :: OrderAccepted(o, q)
    decreases |os|
  {
    if os != [] {
      assert os == Front(os) + [Last(os)];
      OrdersCompile(Front(os), q);
      assert OrderItem(Last(os), q, |OrNone(q.groupBy)|).Some? <==> OrderAccepted(Last(os), q);
    }
  }

  lemma SelectCompiles(q: Query, ps: seq<V>)
    requires q.aggregations != []
    ensures SelectList(q, ps).Some? <==>
            && (q.bucket.Some? ==> 1 <= |q.bucket.value.timezone| <= 64)
            && (forall f | f in OrNone(q.groupBy) :: FieldOk(f)) && forall a | a in q.aggregations :: AggregationAccepted(a)
  {
    hide PushGroups, PushValues, FieldOk, AggregationAccepted, AggregateText, BucketText;
    var b := PushBucket(Selected([], ps), q.bucket);
    if b.Some? {
      GroupsCompile(b.value, OrNone(q.groupBy));
      var g := PushGroups(b.value, OrNone(q.groupBy));
      if g.Some? {
        ValuesCompile(g.value, q.aggregations);
        var v := PushValues(g.value, q.aggregations);
        assert q.aggregations[0] in q.aggregations;
        if v.Some? { AggregateCompiles(q.aggregations[0], v.value.ps); }
      }
    }
  }

  /** What the compiler asks of a query, as a caller could check it before the call. */
  predicate Compilable(q: Query) {
    && 1 <= |q.aggregations| <= 8 && (forall a | a in q.aggregations :: AggregationAccepted(a))
    && |OrNone(q.groupBy)| <= 4 && (forall f | f in OrNone(q.groupBy) :: FieldOk(f))
    && (q.bucket.Some? ==> 1 <= |q.bucket.value.timezone| <= 64)
    && (forall o | o in OrNone(q.orderBy) :: OrderAccepted(o, q))
    && (q.limit.Some? ==> 1 <= q.limit.value <= 10000)
    && (Set(q.fill) ==> q.bucket.Some? && OrNone(q.groupBy) == [] && !Set(q.withTotal))
    && (q.filter.Some? ==> Depth(q.filter.value) <= 9 && LeavesOk(q.filter.value))
  }

  /** A query has a statement exactly when it is that; otherwise the compiler throws. */
  lemma QueryCompilesIff(q: Query, scope: Scope, env: Env)
    ensures Compile(q, scope, env).Some? <==> Compilable(q)
  {
    hide CompileFilter, SelectList, OrderItems, FillText, AggregationAccepted, LeavesOk, Depth, OrderAccepted, FieldOk, Joined;
    if q.aggregations != [] {
      var s := ScopeExpr(scope);
      SelectCompiles(q, s.ps);
      if SelectList(q, s.ps).Some? && q.filter.Some? {
        CompilesIff(q.filter.value, s.ps + SelectList(q, s.ps).value.ps[|s.ps|..], 0, env);
      }
      OrdersCompile(OrNone(q.orderBy), q);
    }
  }

  /** Nothing the schema accepts is refused by the compiler, even one level further down. */
  lemma AcceptedCompiles(q: Query, filter: Option<Filter>, scope: Scope, env: Env)
    requires QueryAccepted(q)
    requires filter.Some? ==> Depth(filter.value) <= MAX_FILTER_DEPTH + 1 && LeavesOk(filter.value)
    ensures Compile(q.(filter := filter), scope, env).Some?
  {
    hide FilterAccepted, Compile, AggregationAccepted, LeavesOk, Depth, FieldOk;
    QueryCompilesIff(q.(filter := filter), scope, env);
  }

  /** The series behind a number: the same question in days, without the parts that split it into several. */
  function SparklineQuery(q: Query): Query {
    q.(bucket := Some(Bucket(Day, "UTC")), fill := Some(true), withTotal := None, groupBy := None, orderBy := None, limit := None)
  }

  /** The rows of the day, by the clock of UTC, that begins there. */
  function OnDay(rows: seq<Row>, start: int, env: Env): seq<Row> {
    if rows == [] then []
    else OnDay(Front(rows), start, env) + if Answers.StartOf(Bucket(Day, "UTC"), Last(rows).time, env) == start then [Last(rows)] else []
  }

  /** One day of a series: what each aggregation has of that day's rows, with zero for a sum of none. */
  function DayLine(q: Query, rows: seq<Row>, start: int, env: Env): Answers.QueryRow {
    Answers.QueryRow(Some(start), [],
                     seq(|q.aggregations|, k requires 0 <= k < |q.aggregations| =>
                       Answers.FilledValue(q.aggregations[k], OnDay(rows, start, env), env)),
                     None)
  }

  predicate Earlier(x: Answers.QueryRow, y: Answers.QueryRow) {
    x.bucket.Some? && y.bucket.Some? && x.bucket.value <= y.bucket.value
  }

  /**
   * The series behind a number is drawn from the very rows the number is, all of
   * them and no others: every day of the window once, oldest first, with what
   * the card's own aggregations have of that day.
   */
  lemma SparklineShows(q: Query, scope: Scope, table: seq<Row>, env: Env, out: seq<Answers.QueryRow>)
    requires q.aggregations != [] && Answers.IsAnswer(SparklineQuery(q), scope, table, env, out)
    ensures var starts, rows := Answers.Starts(Bucket(Day, "UTC"), scope, env), Answers.Picked(q, scope, table, env);
            && (exists order :: Answers.Arrangement(order, |starts|) && |out| == |starts| &&
                  forall i | 0 <= i < |out| :: out[i] == DayLine(q, rows, starts[order[i]], env))
            && forall i, j | 0 <= i < j < |out| :: Earlier(out[i], out[j])
  {
    hide Answers.Starts, Answers.Picked, Answers.FilledLine, DayLine;
    var s := SparklineQuery(q);
    var lines :| Answers.Lines(s, scope, table, env, lines) && Answers.Arranged(Answers.OrdersOf(s), lines, env) && out == lines;
    var starts, rows := Answers.Starts(Bucket(Day, "UTC"), scope, env), Answers.Picked(q, scope, table, env);
    SameRows(q, scope, table, env);
    var order :| Answers.Arrangement(order, |starts|) && |lines| == |starts| &&
                 forall i | 0 <= i < |lines| :: lines[i] == Answers.FilledLine(s, starts[order[i]], rows, env);
    forall i | 0 <= i < |out|
      ensures out[i] == DayLine(q, rows, starts[order[i]], env)
    {
      DayIsLine(q, rows, starts[order[i]], env);
    }
    forall i, j | 0 <= i < j < |out|
      ensures Earlier(out[i], out[j])
    {
      DayIsLine(q, rows, starts[order[i]], env);
      DayIsLine(q, rows, starts[order[j]], env);
      Chronological(lines[i], lines[j], env);
    }
  }

  lemma Chronological(x: Answers.QueryRow, y: Answers.QueryRow, env: Env)
    requires x.bucket.Some? && y.bucket.Some? && Answers.NotAfter([Ordering(ByBucket, false)], x, y, env)
    ensures Earlier(x, y)
  {
  }

  lemma {:induction false} SameRows(q: Query, scope: Scope, table: seq<Row>, env: Env)
    ensures Answers.Picked(SparklineQuery(q), scope, table, env) == Answers.Picked(q, scope, table, env)
    decreases |table|
  {
    hide Meaning;
    if table != [] { SameRows(q, scope, Front(table), env); }
  }

  lemma DayIsLine(q: Query, rows: seq<Row>, start: int, env: Env)
    requires q.aggregations != []
    ensures Answers.FilledLine(SparklineQuery(q), start, rows, env) == DayLine(q, rows, start, env)
    ensures DayLine(q, rows, start, env).bucket == Some(start)
  {
    hide Answers.FilledValue;
    DayMembers(q, rows, start, env);
  }

  lemma {:induction false} DayMembers(q: Query, rows: seq<Row>, start: int, env: Env)
    ensures Answers.Members(SparklineQuery(q), rows, Answers.Group(Some(start), []), env) == OnDay(rows, start, env)
    decreases |rows|
  {
    hide Answers.StartOf;
    if rows != [] {
      DayMembers(q, Front(rows), start, env);
      assert Answers.GroupOf(SparklineQuery(q), Last(rows), env) ==
             Answers.Group(Some(Answers.StartOf(Bucket(Day, "UTC"), Last(rows).time, env)), []);
    }
  }

  /** Every card of a board whose parts the schema accepts has a statement, and so does its sparkline. */
  lemma BoardCompiles(frame: Frame, q: Query, scope: Scope, env: Env)
    requires QueryAccepted(q) && FilterAccepted(frame.filter, MAX_FILTER_DEPTH)
    ensures Compile(EffectiveQuery(frame, q), scope, env).Some?
    ensures Compile(SparklineQuery(EffectiveQuery(frame, q)), scope, env).Some?
  {
    hide Compile, FilterAccepted, FieldOk, AggregationAccepted;
    EffectiveFits(frame, q.filter);
    AcceptedCompiles(q, Some(EffectiveFilter(frame, q.filter)), scope, env);
    SparklineAccepted(q);
    AcceptedCompiles(SparklineQuery(q), Some(EffectiveFilter(frame, q.filter)), scope, env);
  }

  lemma SparklineAccepted(q: Query)
    requires QueryAccepted(q)
    ensures QueryAccepted(SparklineQuery(q))
  {
    hide FilterAccepted, FieldOk, AggregationAccepted;
    assert |"UTC"| == 3;
  }

  lemma EffectiveFits(frame: Frame, own: Option<Filter>)
    requires FilterAccepted(frame.filter, MAX_FILTER_DEPTH) && (own.Some? ==> FilterAccepted(own.value, MAX_FILTER_DEPTH))
    ensures var f := EffectiveFilter(frame, own); Depth(f) <= MAX_FILTER_DEPTH + 1 && LeavesOk(f)
  {
    hide FilterAccepted, TestFrame;
    var parts := Parts(frame, own);
    FrameFits(frame.testMode);
    AcceptedFits(frame.filter, MAX_FILTER_DEPTH);
    if own.Some? { AcceptedFits(own.value, MAX_FILTER_DEPTH); }
    AllFit(parts, MAX_FILTER_DEPTH);
  }

  lemma FrameFits(testMode: bool)
    ensures Depth(TestFrame(testMode)) <= 2 && LeavesOk(TestFrame(testMode))
  {
    assert |TEST| == 13 && forall i | 0 <= i < |TEST| :: SegmentChar(TEST[i]) || TEST[i] == '.';
  }

  lemma {:induction false} AllFit(fs: seq<Filter>, depth: nat)
    requires forall i | 0 <= i < |fs| :: Depth(fs[i]) <= depth && LeavesOk(fs[i])
    ensures DepthAll(fs) <= depth && AllLeavesOk(fs)
    decreases |fs|
  {
    if fs != [] {
      hide Depth, LeavesOk;
      AllFit(Front(fs), depth);
    }
  }

  // ---------------------------------------------------------------------------
  // Adding conditions to a filter
  // ---------------------------------------------------------------------------

  function Held(f: Filter): seq<Filter> { if f.All? then f.filters else [f] }

  function Unheld(conditions: seq<Filter>, held: seq<Filter>): seq<Filter> {
    if conditions == [] then []
    else Unheld(Front(conditions), held) + if Last(conditions) in held then [] else [Last(conditions)]
  }

  /** The same filter back where there is nothing to add or no room to add it. */
  function WithConditions(f: Filter, conditions: seq<Filter>): Filter {
    if conditions == [] then f
    else if !f.All? && Depth(f) >= MAX_FILTER_DEPTH then f
    else
      var additions := Unheld(conditions, Held(f));
      if additions == [] || |Held(f)| + |additions| > MAX_FILTER_BRANCHES then f else All(Held(f) + additions)
  }

  lemma {:induction false} UnheldMembers(conditions: seq<Filter>, held: seq<Filter>)
    ensures forall c :: c in Unheld(conditions, held) <==> c in conditions && c !in held
    ensures |Unheld(conditions, held)| <= |conditions|
    decreases |conditions|
  {
    if conditions != [] {
      UnheldMembers(Front(conditions), held);
      assert conditions == Front(conditions) + [Last(conditions)];
    }
  }

  /** The refusals, as a caller could check them before the call. */
  predicate Refuses(f: Filter, conditions: seq<Filter>) {
    || (!f.All? && Depth(f) >= MAX_FILTER_DEPTH)
    || |Held(f)| + |Unheld(conditions, Held(f))| > MAX_FILTER_BRANCHES
  }

  /** Adding conditions narrows to exactly the rows meeting the filter and every condition, or changes nothing. */
  lemma WithConditionsMeans(f: Filter, conditions: seq<Filter>, row: Row, env: Env)
    ensures var g := WithConditions(f, conditions);
            && (Refuses(f, conditions) ==> g == f)
            && (!Refuses(f, conditions) ==>
                  (Meaning(g, row, env) == T <==>
                   Meaning(f, row, env) == T && forall c | c in conditions :: Meaning(c, row, env) == T))
  {
    var additions := Unheld(conditions, Held(f));
    UnheldMembers(conditions, Held(f));
    HeldMeans(f, row, env);
    if !Refuses(f, conditions) && additions != [] {
      var all := Held(f) + additions;
      AllHolds(all, row, env);
      assert Meaning(All(all), row, env) == AllMeaning(all, row, env);
      forall c | c in conditions && AllMeaning(all, row, env) == T
        ensures Meaning(c, row, env) == T
      {
        assert c in all;
      }
      assert forall i | 0 <= i < |Held(f)| :: all[i] == Held(f)[i];
      assert forall c | c in all :: c in Held(f) || c in additions;
    }
  }

  lemma HeldMeans(f: Filter, row: Row, env: Env)
    ensures Meaning(f, row, env) == T <==> forall i | 0 <= i < |Held(f)| :: Meaning(Held(f)[i], row, env) == T
  {
    AllHolds(Held(f), row, env);
    if f.All? {
      assert Meaning(f, row, env) == AllMeaning(f.filters, row, env);
    }
  }

  /** It keeps the width bound. The depth bound it keeps only where every condition is one level short of it. */
  lemma WithConditionsBounds(f: Filter, conditions: seq<Filter>)
    requires Depth(f) <= MAX_FILTER_DEPTH && (f.All? ==> |f.filters| <= MAX_FILTER_BRANCHES)
    ensures var g := WithConditions(f, conditions);
            && (g.All? ==> |g.filters| <= MAX_FILTER_BRANCHES)
            && ((forall c | c in conditions :: Depth(c) < MAX_FILTER_DEPTH) ==> Depth(g) <= MAX_FILTER_DEPTH)
            && (g != f ==> (Depth(g) <= MAX_FILTER_DEPTH <==>
                              forall c | c in conditions && c !in Held(f) :: Depth(c) < MAX_FILTER_DEPTH))
  {
    hide Depth;
    UnheldMembers(conditions, Held(f));
    var additions := Unheld(conditions, Held(f));
    var all := Held(f) + additions;
    DepthMembers(all, MAX_FILTER_DEPTH - 1);
    DepthMembers(Held(f), MAX_FILTER_DEPTH - 1);
    AllDepth(f);
    AllDepth(All(all));
    assert forall c :: c in all <==> c in Held(f) || c in additions;
  }

  lemma AllDepth(f: Filter)
    ensures f.All? ==> Depth(f) == 1 + DepthAll(f.filters)
  {
  }

  lemma {:induction false} DepthMembers(fs: seq<Filter>, n: nat)
    ensures DepthAll(fs) <= n <==> NoDeeper(fs, n)
    decreases |fs|
  {
    if fs != [] {
      DepthMembers(Front(fs), n);
      assert forall f :: f in fs <==> f in Front(fs) || f == Last(fs) by { assert fs == Front(fs) + [Last(fs)]; }
      assert NoDeeper(fs, n) <==> NoDeeper(Front(fs), n) && Depth(Last(fs)) <= n by { hide Depth; }
    }
  }

  ghost predicate NoDeeper(fs: seq<Filter>, n: nat) { forall f | f in fs :: Depth(f) <= n }

  // ---------------------------------------------------------------------------
  // What a board fetches
  // ---------------------------------------------------------------------------

  datatype Board = Board(frame: Frame, widgets: seq<Widget>)

  predicate HasSparkline(w: Widget) { w.QueryWidget? && w.number && w.sparkline && OrNone(w.query.groupBy) == [] }

  datatype BoardRequest = BoardRequest(key: Key, query: Query, compare: bool)

  /** One thing a card looks up. */
  datatype Ask = Ask(query: Query, compare: bool)

  function AsksOf(frame: Frame, w: Widget): seq<Ask> {
    match w
    case NoteWidget(_) => []
    case QueryWidget(_, query, compare, _) =>
      [Ask(EffectiveQuery(frame, query), compare)] +
      if HasSparkline(w) then [Ask(SparklineQuery(EffectiveQuery(frame, query)), false)] else []
  }

  /**
   * A note asks nothing; a card asks its own question under its board's frame, and
   * a series besides exactly if it is an ungrouped number that wants one.
   */
  lemma CardAsks(frame: Frame, w: Widget, a: Ask)
    ensures w.NoteWidget? ==> a !in AsksOf(frame, w)
    ensures w.QueryWidget? ==>
              (a in AsksOf(frame, w) <==>
               || a == Ask(EffectiveQuery(frame, w.query), w.compare)
               || (w.number && w.sparkline && OrNone(w.query.groupBy) == [] &&
                   a == Ask(SparklineQuery(EffectiveQuery(frame, w.query)), false)))
  {
    hide EffectiveQuery, SparklineQuery;
  }

  /** Everything the cards of a board look up, in order. */
  function Asks(frame: Frame, widgets: seq<Widget>): seq<Ask> {
    if widgets == [] then [] else Asks(frame, Front(widgets)) + AsksOf(frame, Last(widgets))
  }

  lemma {:induction false} AsksCover(frame: Frame, widgets: seq<Widget>)
    ensures forall w, a | w in widgets && a in AsksOf(frame, w) :: a in Asks(frame, widgets)
    ensures forall a | a in Asks(frame, widgets) :: exists w | w in widgets :: a in AsksOf(frame, w)
    decreases |widgets|
  {
    if widgets != [] {
      hide AsksOf;
      AsksCover(frame, Front(widgets));
      assert widgets == Front(widgets) + [Last(widgets)];
      assert Last(widgets) in widgets;
    }
  }

  /** The keys a card draws from. */
  function WidgetKeys(frame: Frame, w: Widget): set<Key> { set a | a in AsksOf(frame, w) :: QueryKey(a.query) }

  /** One request a key, filed under the key of the query it carries, measured twice if any asker wants it. */
  ghost predicate Planned(plan: seq<BoardRequest>, asks: seq<Ask>) {
    && (forall i, j | 0 <= i < j < |plan| :: plan[i].key != plan[j].key)
    && (forall i | 0 <= i < |plan| :: plan[i].key == QueryKey(plan[i].query) && Asked(plan[i].query, asks))
    && (forall i | 0 <= i < |plan| :: plan[i].compare <==> exists a | a in asks :: QueryKey(a.query) == plan[i].key && a.compare)
    && (forall a | a in asks :: HasKey(plan, QueryKey(a.query)))
  }

  ghost predicate Asked(q: Query, asks: seq<Ask>) { exists a | a in asks :: a.query == q }

  ghost predicate HasKey(plan: seq<BoardRequest>, key: Key) { exists i | 0 <= i < |plan| :: plan[i].key == key }

  /** `want`, on an insertion-ordered map. */
  method Want(plan: seq<BoardRequest>, ghost asks: seq<Ask>, query: Query, compare: bool) returns (out: seq<BoardRequest>)
    requires Planned(plan, asks)
    ensures Planned(out, asks + [Ask(query, compare)])
  {
    hide QueryKey;
    var key := QueryKey(query);
    var i := 0;
    while i < |plan| && plan[i].key != key
      invariant 0 <= i <= |plan|
      invariant forall j | 0 <= j < i :: plan[j].key != key
    {
      i := i + 1;
    }
    if i < |plan| {
      out := plan[i := plan[i].(compare := plan[i].compare || compare)];
    } else {
      out := plan + [BoardRequest(key, query, compare)];
    }
    WantKeeps(plan, asks, Ask(query, compare), out, i);
  }

  /** The plan once `a` is asked for and its key stands at `at`, or nowhere. */
  ghost predicate Wanted(plan: seq<BoardRequest>, a: Ask, out: seq<BoardRequest>, at: nat) {
    && at <= |plan| && (forall j | 0 <= j < at :: plan[j].key != QueryKey(a.query))
    && (at < |plan| ==> plan[at].key == QueryKey(a.query))
    && out == if at < |plan| then plan[at := plan[at].(compare := plan[at].compare || a.compare)]
              else plan + [BoardRequest(QueryKey(a.query), a.query, a.compare)]
  }

  lemma WantKeeps(plan: seq<BoardRequest>, asks: seq<Ask>, a: Ask, out: seq<BoardRequest>, at: nat)
    requires Planned(plan, asks) && Wanted(plan, a, out, at)
    ensures Planned(out, asks + [a])
  {
    hide Wanted, HasKey, Asked, QueryKey;
    WantDistinct(plan, asks, a, out, at);
    forall i | 0 <= i < |out|
      ensures out[i].key == QueryKey(out[i].query) && Asked(out[i].query, asks + [a])
    {
      AskedKeeps(plan, asks, a, out, at, i);
    }
    forall i | 0 <= i < |out|
      ensures out[i].compare <==> exists b | b in asks + [a] :: QueryKey(b.query) == out[i].key && b.compare
    {
      CompareKeeps(plan, asks, a, out, at, i);
    }
    forall b | b in asks + [a]
      ensures HasKey(out, QueryKey(b.query))
    {
      KeyKeeps(plan, asks, a, out, at, b);
    }
  }

  lemma WantDistinct(plan: seq<BoardRequest>, asks: seq<Ask>, a: Ask, out: seq<BoardRequest>, at: nat)
    requires Planned(plan, asks) && Wanted(plan, a, out, at)
    ensures forall i, j | 0 <= i < j < |out| :: out[i].key != out[j].key
  {
    hide QueryKey;
  }

  lemma AskedKeeps(plan: seq<BoardRequest>, asks: seq<Ask>, a: Ask, out: seq<BoardRequest>, at: nat, i: nat)
    requires Planned(plan, asks) && Wanted(plan, a, out, at) && i < |out|
    ensures out[i].key == QueryKey(out[i].query) && Asked(out[i].query, asks + [a])
  {
    hide QueryKey;
    assert (asks + [a])[|asks|] == a;
    if i < |plan| {
      assert Asked(plan[i].query, asks);
      var b :| b in asks && b.query == plan[i].query;
      assert b in asks + [a];
    }
  }

  lemma KeyKeeps(plan: seq<BoardRequest>, asks: seq<Ask>, a: Ask, out: seq<BoardRequest>, at: nat, b: Ask)
    requires Planned(plan, asks) && Wanted(plan, a, out, at) && b in asks + [a]
    ensures HasKey(out, QueryKey(b.query))
  {
    hide QueryKey;
    if b in asks {
      var i :| 0 <= i < |plan| && plan[i].key == QueryKey(b.query);
      assert out[i].key == QueryKey(b.query);
    } else {
      assert out[at].key == QueryKey(a.query);
    }
  }

  lemma CompareKeeps(plan: seq<BoardRequest>, asks: seq<Ask>, a: Ask, out: seq<BoardRequest>, at: nat, i: nat)
    requires Planned(plan, asks) && Wanted(plan, a, out, at) && i < |out|
    ensures out[i].compare <==> exists b | b in asks + [a] :: QueryKey(b.query) == out[i].key && b.compare
  {
    hide QueryKey;
    var more := asks + [a];
    assert more[|asks|] == a;
    if exists b :: b in asks && QueryKey(b.query) == out[i].key && b.compare {
      var b :| b in asks && QueryKey(b.query) == out[i].key && b.compare;
      assert b in more;
      assert HasKey(plan, QueryKey(b.query));
    }
    if i != at {
      assert out[i] == plan[i];
      assert plan[i].key != QueryKey(a.query);
    }
  }

  method BoardRequests(board: Board) returns (plan: seq<BoardRequest>)
    ensures Planned(plan, Asks(board.frame, board.widgets))
  {
    hide EffectiveQuery, SparklineQuery, Planned, QueryKey;
    plan := [];
    assert Planned(plan, Asks(board.frame, [])) by { NothingPlanned(); }
    for i := 0 to |board.widgets|
      invariant Planned(plan, Asks(board.frame, board.widgets[..i]))
    {
      var widget := board.widgets[i];
      ghost var asks := Asks(board.frame, board.widgets[..i]);
      assert Front(board.widgets[..i + 1]) == board.widgets[..i];
      match widget
      case NoteWidget(_) =>
        assert asks + [] == asks;
      case QueryWidget(_, own, compare, _) =>
        var query := EffectiveQuery(board.frame, own);
        plan := Want(plan, asks, query, compare);
        if HasSparkline(widget) {
          plan := Want(plan, asks + [Ask(query, compare)], SparklineQuery(query), false);
          Assoc(asks, [Ask(query, compare)], [Ask(SparklineQuery(query), false)]);
        } else {
          assert [Ask(query, compare)] + [] == [Ask(query, compare)];
        }
    }
    assert board.widgets[..|board.widgets|] == board.widgets;
  }

  lemma NothingPlanned()
    ensures Planned([], [])
  {
  }

  function ToRequests(plan: seq<BoardRequest>): (r: seq<Request>)
    ensures |r| == |plan|
  {
    seq(|plan|, i requires 0 <= i < |plan| => Request(plan[i].key, plan[i].query))
  }

  lemma FoundAt(plan: seq<BoardRequest>, asks: seq<Ask>, a: Ask) returns (i: nat)
    requires Planned(plan, asks) && a in asks
    ensures i < |plan| && plan[i].key == QueryKey(a.query) && plan[i].query == a.query
  {
    hide QueryKey;
    assert HasKey(plan, QueryKey(a.query));
    i :| 0 <= i < |plan| && plan[i].key == QueryKey(a.query);
    KeyDecidesQuery(plan[i].query, a.query);
  }

  lemma OneRequest(plan: seq<BoardRequest>, asks: seq<Ask>, m: nat, n: nat)
    requires Planned(plan, asks) && m < |plan| && n < |plan| && plan[m].key == plan[n].key
    ensures m == n
  {
    hide QueryKey;
  }

  /**
   * Fetch and render agree: whatever a card looks up was fetched, and what is
   * filed under that key is what its own question would have been answered.
   */
  lemma FetchMeetsRender(board: Board, plan: seq<BoardRequest>,
                         db: Database, out: map<Key, seq<Answers.QueryRow>>, scope: Scope, env: Env, w: Widget, a: Ask)
    requires Planned(plan, Asks(board.frame, board.widgets))
    requires Filed(out, ToRequests(plan), db, scope, env) && forall r | r in ToRequests(plan) :: r.key in out
    requires w in board.widgets && a in AsksOf(board.frame, w)
    ensures QueryKey(a.query) in WidgetKeys(board.frame, w) && QueryKey(a.query) in out
    ensures Answer(db, a.query, scope, env) == Some(out[QueryKey(a.query)])
  {
    hide Answer, AsksOf, Planned, Filed, QueryKey;
    AsksCover(board.frame, board.widgets);
    var i := FoundAt(plan, Asks(board.frame, board.widgets), a);
    var requests := ToRequests(plan);
    assert requests[i] in requests && requests[i].query == a.query;
    forall x, y | x in requests && y in requests && x.key == y.key
      ensures x.query == y.query
    {
      var m :| 0 <= m < |plan| && requests[m] == x;
      var n :| 0 <= n < |plan| && requests[n] == y;
      OneRequest(plan, Asks(board.frame, board.widgets), m, n);
    }
    FiledIsOwn(out, requests, db, scope, env, requests[i]);
  }

  /**
   * So a card shows an answer to its own question, by what the question means:
   * over the rows in scope that meet the card's effective filter, and no others.
   */
  lemma CardShowsAnswer(board: Board, plan: seq<BoardRequest>, db: Database, out: map<Key, seq<Answers.QueryRow>>,
                        scope: Scope, env: Env, w: Widget, a: Ask, table: seq<Row>)
    requires Planned(plan, Asks(board.frame, board.widgets))
    requires Filed(out, ToRequests(plan), db, scope, env) && forall r | r in ToRequests(plan) :: r.key in out
    requires w in board.widgets && a in AsksOf(board.frame, w)
    requires StatementProof.TruthfulFor(db, a.query, scope, table, env)
    ensures a.query.aggregations != [] && QueryKey(a.query) in out
    ensures Answers.IsAnswer(a.query, scope, table, env, out[QueryKey(a.query)])
  {
    hide AsksOf, Planned, Filed, QueryKey, StatementProof.TruthfulFor, Answers.IsAnswer, Answer;
    FetchMeetsRender(board, plan, db, out, scope, env, w, a);
    StatementProof.AnswerIsAnswer(db, a.query, scope, env, table);
  }
}
