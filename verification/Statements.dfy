/** The whole statement a query compiles to, and running a board's worth of them. */
module Statements {
  import opened Sequences
  import opened Filters
  import opened Sql
  import opened Compiler

  const MAX_AGGREGATIONS := 8
  const MAX_GROUPS := 4
  const MAX_LIMIT := 10000
  const MAX_TIMEZONE := 64

  datatype Measure = Sum | Avg | Least | Most

  datatype Aggregation =
    | Count
    | CountDistinct(field: Field)
    | Of(measure: Measure, field: Field)
    | Percentile(field: Field, p: real)

  datatype Bucket = Bucket(unit: Unit, timezone: string)

  datatype OrderKey = ByBucket | ByGroup(i: int) | ByAggregate(i: int)

  datatype Ordering = Ordering(key: OrderKey, descending: bool)

  /** A missing part is not the same query as its default written out, though it may compile the same. */
  datatype Query = Query(
    filter: Option<Filter>, groupBy: Option<seq<Field>>, aggregations: seq<Aggregation>, bucket: Option<Bucket>,
    orderBy: Option<seq<Ordering>>, limit: Option<int>, withTotal: Option<bool>, fill: Option<bool>)

  function OrNone<T>(s: Option<seq<T>>): seq<T> { if s.Some? then s.value else [] }

  predicate Set(b: Option<bool>) { b == Some(true) }

  // ---------------------------------------------------------------------------
  // Text
  // ---------------------------------------------------------------------------

  /** The filter compiler's tokens, fixed wording, output aliases, and references to them. */
  datatype Tok =
    | E(t: Token) | Word(s: string)
    | AsBucket | AsGroup(i: nat) | AsValue(i: nat) | AsTotal
    | RefBucket | RefGroup(g: int) | RefValue(a: int) | Measured(m: nat) | Ordinal(n: nat)

  predicate Alias(t: Tok) { t.AsBucket? || t.AsGroup? || t.AsValue? || t.AsTotal? }

  datatype Draft = Draft(ts: seq<Tok>, ps: seq<V>)

  function Lift(ts: seq<Token>): (r: seq<Tok>)
    ensures |r| == |ts| && forall t | t in r :: !Alias(t)
  {
    seq(|ts|, i requires 0 <= i < |ts| => E(ts[i]))
  }

  /** What can be in text that names no output column. */
  ghost predicate Plain(ts: seq<Tok>) { forall t | t in ts :: !Alias(t) }

  // ---------------------------------------------------------------------------
  // The select list
  // ---------------------------------------------------------------------------

  predicate Numeric(f: Field) {
    match f
    case Attribute(_, reading) => reading == Some(AsNumber)
    case ColumnOf(c) => c == Severity || c == Time || c == IngestedAt
    case Unique => false
  }

  function NumberText(f: Field, ps: seq<V>): (d: Draft)
    requires Numeric(f)
    ensures Plain(d.ts) && ps <= d.ps
  {
    match f
    case Attribute(path, _) => var e := NumberExpr(path, ps); Draft(Lift(e.ts), e.ps)
    case ColumnOf(c) =>
      if c == Severity then Draft(Lift([ColumnT(c), CastT(NumericT)]), ps)
      else Draft([Word("(extract(epoch from "), E(ColumnT(c)), Word(") * 1000)")], ps)
  }

  function AggregateText(a: Aggregation, ps: seq<V>): (d: Option<Draft>)
    ensures d.Some? ==> Plain(d.value.ts) && ps <= d.value.ps
  {
    match a
    case Count => Some(Draft([Word("count(*)::double precision")], ps))
    case CountDistinct(f) =>
      if !FieldOk(f) then None
      else
        var e := TextExpr(f, ps);
        Some(Draft([Word("count(DISTINCT ")] + Lift(e.ts) + [Word(")::double precision")], e.ps))
    case Of(m, f) =>
      if !FieldOk(f) || !Numeric(f) then None
      else
        var d := NumberText(f, ps);
        Some(Draft([Word(MeasureName(m)), E(LParen)] + d.ts + [Word(")::double precision")], d.ps))
    case Percentile(f, p) =>
      if !FieldOk(f) || !Numeric(f) || p < 0.0 || p > 1.0 then None
      else
        var d := NumberText(f, ps + [VNum(p)]);
        Some(Draft([Word("(percentile_cont("), E(ParamT(|ps| + 1)), Word("::double precision) WITHIN GROUP (ORDER BY ")] +
                   d.ts + [Word("))::double precision")], d.ps))
  }

  function MeasureName(m: Measure): string {
    match m case Sum => "sum" case Avg => "avg" case Least => "min" case Most => "max"
  }

  function UnitName(u: Unit): string {
    match u case Minute => "minute" case Hour => "hour" case Day => "day" case Week => "week" case Month => "month"
  }

  predicate BucketOk(b: Bucket) { 0 < |b.timezone| <= MAX_TIMEZONE }

  /** One placeholder each for the unit and the zone; the zone's is used twice. */
  function BucketText(b: Bucket, ps: seq<V>): (d: Draft)
    ensures Plain(d.ts) && ps <= d.ps
  {
    var tz := E(ParamT(|ps| + 2));
    Draft([Word("(date_trunc("), E(ParamT(|ps| + 1)), Word(", "), E(ColumnT(Time)), Word(" AT TIME ZONE "), tz,
           Word(") AT TIME ZONE "), tz, Word(")")],
          ps + [VText(UnitName(b.unit)), VText(b.timezone)])
  }

  /** The items pushed so far, and the values bound so far. */
  datatype Selected = Selected(items: seq<seq<Tok>>, ps: seq<V>)

  function PushGroups(s: Selected, groups: seq<Field>): (r: Option<Selected>)
    ensures r.Some? ==> s.ps <= r.value.ps && s.items <= r.value.items
  {
    if groups == [] then Some(s)
    else
      match PushGroups(s, Front(groups))
      case None => None
      case Some(b) =>
        if !FieldOk(Last(groups)) then None
        else
          var e := TextExpr(Last(groups), b.ps);
          Some(Selected(b.items + [Lift(e.ts) + [AsGroup(|groups| - 1)]], e.ps))
  }

  function PushValues(s: Selected, aggregations: seq<Aggregation>): (r: Option<Selected>)
    ensures r.Some? ==> s.ps <= r.value.ps && s.items <= r.value.items
  {
    if aggregations == [] then Some(s)
    else
      match PushValues(s, Front(aggregations))
      case None => None
      case Some(b) =>
        match AggregateText(Last(aggregations), b.ps)
        case None => None
        case Some(d) => Some(Selected(b.items + [d.ts + [AsValue(|aggregations| - 1)]], d.ps))
  }

  function PushTotal(s: Selected, a: Aggregation): (r: Option<Selected>)
    ensures r.Some? ==> s.ps <= r.value.ps && s.items <= r.value.items
  {
    match AggregateText(a, s.ps)
    case None => None
    case Some(d) => Some(Selected(s.items + [[Word("sum(")] + d.ts + [Word(") OVER ()"), AsTotal]], d.ps))
  }

  function PushBucket(s: Selected, bucket: Option<Bucket>): (r: Option<Selected>)
    ensures r.Some? ==> s.ps <= r.value.ps && s.items <= r.value.items
  {
    match bucket
    case None => Some(s)
    case Some(b) =>
      if !BucketOk(b) then None
      else var d := BucketText(b, s.ps); Some(Selected(s.items + [d.ts + [AsBucket]], d.ps))
  }

  function SelectList(q: Query, ps: seq<V>): (r: Option<Selected>)
    requires q.aggregations != []
    ensures r.Some? ==> ps <= r.value.ps
  {
    match PushBucket(Selected([], ps), q.bucket)
    case None => None
    case Some(b) =>
      match PushGroups(b, OrNone(q.groupBy))
      case None => None
      case Some(g) =>
        match PushValues(g, q.aggregations)
        case None => None
        case Some(v) => if Set(q.withTotal) then PushTotal(v, q.aggregations[0]) else Some(v)
  }

  function Joined(items: seq<seq<Tok>>): seq<Tok> {
    if items == [] then [] else if |items| == 1 then items[0]
    else Joined(Front(items)) + [E(Comma)] + Last(items)
  }

  // ---------------------------------------------------------------------------
  // The rest of the statement
  // ---------------------------------------------------------------------------

  function OrderItem(o: Ordering, q: Query, groups: nat): (r: Option<seq<Tok>>)
    ensures r.Some? ==> Plain(r.value)
  {
    var dir := if o.descending then Word(" DESC") else Word(" ASC");
    match o.key
    case ByBucket => if q.bucket.None? then None else Some([RefBucket, dir])
    case ByGroup(i) => if 0 <= i < groups then Some([RefGroup(i), dir, Word(" NULLS LAST")]) else None
    case ByAggregate(i) => if 0 <= i < |q.aggregations| then Some([RefValue(i), dir, Word(" NULLS LAST")]) else None
  }

  function OrderItems(os: seq<Ordering>, q: Query, groups: nat): (r: Option<seq<Tok>>)
    ensures r.Some? ==> Plain(r.value)
  {
    if os == [] then Some([])
    else
      match (OrderItems(Front(os), q, groups), OrderItem(Last(os), q, groups))
      case (Some(before), Some(item)) => Some(before + (if before == [] then [] else [E(Comma)]) + item)
      case _ => None
  }

  /** Bucketed queries default to chronological. */
  function OrderText(q: Query, groups: nat): (r: Option<seq<Tok>>)
    ensures r.Some? ==> Plain(r.value)
  {
    var os := OrNone(q.orderBy);
    if os == [] then Some(if q.bucket.Some? then [RefBucket, Word(" ASC")] else []) else OrderItems(os, q, groups)
  }

  function Ordinals(n: nat): (r: seq<Tok>)
    ensures Plain(r)
  {
    if n == 0 then [] else Ordinals(n - 1) + (if n == 1 then [] else [E(Comma)]) + [Ordinal(n)]
  }

  function OrderClause(order: seq<Tok>): seq<Tok> { if order == [] then [] else [Word(" ORDER BY ")] + order }

  function LimitClause(limit: Option<int>, ps: seq<V>): Draft {
    if limit.None? then Draft([], ps)
    else Draft([Word(" LIMIT "), E(ParamT(|ps| + 1))], ps + [VNum(limit.value as real)])
  }

  predicate ZeroOverNothing(a: Aggregation) { a.Count? || a.CountDistinct? || a == Of(Sum, a.field) }

  /** `coalesce(m.a0, 0)`, or `m.a0`. */
  function FilledColumn(a: Aggregation, i: nat): (r: seq<Tok>)
    ensures Plain(r)
  {
    if ZeroOverNothing(a) then [Word("coalesce("), Measured(i), Word(", 0)")] else [Measured(i)]
  }

  /** The columns after the bucket, each behind a comma and under its own name. */
  function FilledColumns(aggregations: seq<Aggregation>): seq<Tok> {
    if aggregations == [] then []
    else
      var i := |aggregations| - 1;
      FilledColumns(Front(aggregations)) + [E(Comma)] + (FilledColumn(Last(aggregations), i) + [AsValue(i)])
  }

  function StepName(u: Unit): string { "1 " + UnitName(u) }

  /** What the fill binds for itself. */
  function SeriesValues(b: Bucket, scope: Scope): seq<V> {
    [VText(UnitName(b.unit)), VText(b.timezone), VText(StepName(b.unit)), VTime(scope.from), VTime(scope.to)]
  }

  /** Every bucket of the window, each with its measured groups or with none. */
  function FillText(measured: Draft, q: Query, scope: Scope, order: seq<Tok>): Draft
    requires q.bucket.Some?
  {
    var n := |measured.ps|;
    var ps := measured.ps + SeriesValues(q.bucket.value, scope);
    var limit := LimitClause(q.limit, ps);
    Draft(SeriesText(n) + measured.ts + ([Word(") SELECT b.bucket"), AsBucket] + FilledColumns(q.aggregations)) +
          ([Word(" FROM buckets b LEFT JOIN measured m ON m.bucket = b.bucket")] + OrderClause(order) + limit.ts),
          limit.ps)
  }

  /** `n` values were bound before the fill's own five: unit, zone, step, from, to. */
  function SeriesText(n: nat): seq<Tok> {
    var unit, tz := E(ParamT(n + 1)), E(ParamT(n + 2));
    [Word("WITH buckets AS (SELECT generate_series(date_trunc("), unit, Word(", "), E(ParamT(n + 4)),
     Word("::timestamptz AT TIME ZONE "), tz, Word("), date_trunc("), unit, Word(", ("), E(ParamT(n + 5)),
     Word("::timestamptz - interval '1 microsecond') AT TIME ZONE "), tz, Word("), "), E(ParamT(n + 3)),
     Word("::interval) AT TIME ZONE "), tz, AsBucket, Word("), measured AS (")]
  }

  predicate LimitOk(limit: Option<int>) { limit.Some? ==> 1 <= limit.value <= MAX_LIMIT }

  predicate ShapeOk(q: Query) {
    && 0 < |q.aggregations| <= MAX_AGGREGATIONS && |OrNone(q.groupBy)| <= MAX_GROUPS
    && (Set(q.fill) ==> q.bucket.Some? && OrNone(q.groupBy) == [] && !Set(q.withTotal))
    && LimitOk(q.limit)
  }

  function GroupClause(q: Query): (r: seq<Tok>)
    ensures Plain(r)
  {
    var n := (if q.bucket.Some? then 1 else 0) + |OrNone(q.groupBy)|;
    if n == 0 then [] else [Word(" GROUP BY ")] + Ordinals(n)
  }

  /** The part both forms share: select list, scope, filter, grouping. */
  function MeasuredText(q: Query, scope: Scope, env: Env): Option<Draft>
    requires q.aggregations != []
  {
    var s := ScopeExpr(scope);
    match SelectList(q, s.ps)
    case None => None
    case Some(sel) =>
      match Where(scope, sel.ps[|s.ps|..], q.filter, env)
      case None => None
      case Some(w) =>
        Some(Draft([Word("SELECT ")] + Joined(sel.items) + [Word(" FROM \"log_entries\" WHERE ")] + Lift(w.ts) + GroupClause(q), w.ps))
  }

  /** None where the compiler throws. */
  function Compile(q: Query, scope: Scope, env: Env): Option<Draft> {
    if !ShapeOk(q) then None
    else
      match (MeasuredText(q, scope, env), OrderText(q, if Set(q.fill) then 0 else |OrNone(q.groupBy)|))
      case (Some(m), Some(order)) =>
        if Set(q.fill) then Some(FillText(m, q, scope, order))
        else
          var limit := LimitClause(q.limit, m.ps);
          Some(Draft(m.ts + OrderClause(order) + limit.ts, limit.ps))
      case _ => None
  }

  // ---------------------------------------------------------------------------
  // What a statement's own text says about its answer
  // ---------------------------------------------------------------------------

  /** The columns a query's answer has, which is all that decoding looks at. */
  datatype Shape = Shape(bucketed: bool, groups: nat, values: nat, total: bool)

  function ShapeOf(q: Query): Shape {
    Shape(q.bucket.Some?, |OrNone(q.groupBy)|, |q.aggregations|, Set(q.withTotal))
  }

  ghost function NamesOf(ts: seq<Tok>): set<Tok> { set t | t in ts && Alias(t) }

  ghost function GroupNames(n: nat): set<Tok> { set i | 0 <= i < n :: AsGroup(i) }

  ghost function ValueNames(n: nat): set<Tok> { set i | 0 <= i < n :: AsValue(i) }

  /** The output columns of an answer of that shape. */
  ghost function Columns(s: Shape): set<Tok> {
    (if s.bucketed then {AsBucket} else {}) + GroupNames(s.groups) + ValueNames(s.values) + (if s.total then {AsTotal} else {})
  }

  lemma ColumnsDecide(a: Shape, b: Shape)
    requires Columns(a) == Columns(b)
    ensures a == b
  {
    assert AsBucket in Columns(a) <==> a.bucketed;
    assert AsTotal in Columns(a) <==> a.total;
    assert AsGroup(a.groups) !in Columns(a) && AsGroup(b.groups) !in Columns(b);
    assert AsValue(a.values) !in Columns(a) && AsValue(b.values) !in Columns(b);
    assert a.groups < b.groups ==> AsGroup(a.groups) in Columns(b);
    assert b.groups < a.groups ==> AsGroup(b.groups) in Columns(a);
    assert a.values < b.values ==> AsValue(a.values) in Columns(b);
    assert b.values < a.values ==> AsValue(b.values) in Columns(a);
  }

  lemma NextNames(n: nat)
    ensures GroupNames(n + 1) == GroupNames(n) + {AsGroup(n)} && ValueNames(n + 1) == ValueNames(n) + {AsValue(n)}
  {
  }

  lemma NamesConcat(a: seq<Tok>, b: seq<Tok>)
    ensures NamesOf(a + b) == NamesOf(a) + NamesOf(b)
  {
  }

  lemma PlainNames(ts: seq<Tok>)
    requires Plain(ts)
    ensures NamesOf(ts) == {}
  {
  }

  lemma ItemNames(d: seq<Tok>, alias: Tok)
    requires Plain(d) && Alias(alias)
    ensures NamesOf(d + [alias]) == {alias}
  {
  }

  lemma {:induction false} JoinedNames(items: seq<seq<Tok>>, last: seq<Tok>)
    ensures NamesOf(Joined(items + [last])) == NamesOf(Joined(items)) + NamesOf(last)
  {
    var all := items + [last];
    assert Front(all) == items && Last(all) == last;
    if items != [] {
      NamesConcat(Joined(items) + [E(Comma)], last);
      NamesConcat(Joined(items), [E(Comma)]);
    }
  }

  lemma {:induction false} GroupsName(s: Selected, groups: seq<Field>)
    requires PushGroups(s, groups).Some?
    ensures NamesOf(Joined(PushGroups(s, groups).value.items)) == NamesOf(Joined(s.items)) + GroupNames(|groups|)
    decreases |groups|
  {
    if groups != [] {
      hide TextExpr, FieldOk, NamesOf, Joined, GroupNames;
      GroupsName(s, Front(groups));
      var b := PushGroups(s, Front(groups)).value;
      var d := Lift(TextExpr(Last(groups), b.ps).ts);
      JoinedNames(b.items, d + [AsGroup(|groups| - 1)]);
      ItemNames(d, AsGroup(|groups| - 1));
      NextNames(|groups| - 1);
    } else {
      assert GroupNames(0) == {};
    }
  }

  lemma {:induction false} ValuesName(s: Selected, aggregations: seq<Aggregation>)
    requires PushValues(s, aggregations).Some?
    ensures NamesOf(Joined(PushValues(s, aggregations).value.items)) == NamesOf(Joined(s.items)) + ValueNames(|aggregations|)
    decreases |aggregations|
  {
    if aggregations != [] {
      hide AggregateText, NamesOf, Joined, ValueNames;
      ValuesName(s, Front(aggregations));
      var b := PushValues(s, Front(aggregations)).value;
      var d := AggregateText(Last(aggregations), b.ps).value.ts;
      JoinedNames(b.items, d + [AsValue(|aggregations| - 1)]);
      ItemNames(d, AsValue(|aggregations| - 1));
      NextNames(|aggregations| - 1);
    } else {
      assert ValueNames(0) == {};
    }
  }

  lemma BucketNames(s: Selected, bucket: Option<Bucket>)
    requires PushBucket(s, bucket).Some?
    ensures NamesOf(Joined(PushBucket(s, bucket).value.items)) ==
            NamesOf(Joined(s.items)) + if bucket.Some? then {AsBucket} else {}
  {
    hide BucketText;
    if bucket.Some? {
      var d := BucketText(bucket.value, s.ps).ts;
      JoinedNames(s.items, d + [AsBucket]);
      ItemNames(d, AsBucket);
    }
  }

  lemma TotalNames(s: Selected, a: Aggregation)
    requires PushTotal(s, a).Some?
    ensures NamesOf(Joined(PushTotal(s, a).value.items)) == NamesOf(Joined(s.items)) + {AsTotal}
  {
    hide AggregateText;
    var d := AggregateText(a, s.ps).value.ts;
    var inner := [Word("sum(")] + d + [Word(") OVER ()")];
    assert [Word("sum(")] + d + [Word(") OVER ()"), AsTotal] == inner + [AsTotal];
    JoinedNames(s.items, inner + [AsTotal]);
    ItemNames(inner, AsTotal);
  }

  lemma SelectNames(q: Query, ps: seq<V>)
    requires q.aggregations != [] && SelectList(q, ps).Some?
    ensures NamesOf(Joined(SelectList(q, ps).value.items)) == Columns(ShapeOf(q))
  {
    hide PushBucket, PushGroups, PushValues, PushTotal, GroupNames, ValueNames;
    var s := Selected([], ps);
    var b := PushBucket(s, q.bucket).value;
    BucketNames(s, q.bucket);
    GroupsName(b, OrNone(q.groupBy));
    var g := PushGroups(b, OrNone(q.groupBy)).value;
    ValuesName(g, q.aggregations);
    var v := PushValues(g, q.aggregations).value;
    if Set(q.withTotal) { TotalNames(v, q.aggregations[0]); }
  }

  lemma MeasuredNames(q: Query, scope: Scope, env: Env)
    requires q.aggregations != [] && MeasuredText(q, scope, env).Some?
    ensures NamesOf(MeasuredText(q, scope, env).value.ts) == Columns(ShapeOf(q))
  {
    hide SelectList, Where, GroupClause, Joined, Columns;
    var s := ScopeExpr(scope);
    var sel := SelectList(q, s.ps).value;
    var w := Where(scope, sel.ps[|s.ps|..], q.filter, env).value;
    SelectNames(q, s.ps);
    var a, b := [Word("SELECT ")] + Joined(sel.items), [Word(" FROM \"log_entries\" WHERE ")] + Lift(w.ts) + GroupClause(q);
    assert MeasuredText(q, scope, env).value.ts == a + b;
    NamesConcat([Word("SELECT ")], Joined(sel.items));
    NamesConcat(a, b);
    PlainNames([Word("SELECT ")]);
    PlainNames(b);
  }

  lemma {:induction false} FilledNames(aggregations: seq<Aggregation>)
    ensures NamesOf(FilledColumns(aggregations)) == ValueNames(|aggregations|)
    decreases |aggregations|
  {
    if aggregations != [] {
      var i := |aggregations| - 1;
      FilledNames(Front(aggregations));
      var item := FilledColumn(Last(aggregations), i);
      NamesConcat(FilledColumns(Front(aggregations)) + [E(Comma)], item + [AsValue(i)]);
      NamesConcat(FilledColumns(Front(aggregations)), [E(Comma)]);
      ItemNames(item, AsValue(i));
      NextNames(i);
      hide FilledColumn, ValueNames;
    }
  }

  lemma FillNames(measured: Draft, q: Query, scope: Scope, order: seq<Tok>)
    requires q.bucket.Some? && Plain(order) && NamesOf(measured.ts) == Columns(ShapeOf(q))
    ensures NamesOf(FillText(measured, q, scope, order).ts) == Columns(ShapeOf(q))
  {
    hide FilledColumns, SeriesText, NamesOf;
    var n := |measured.ps|;
    var ps := measured.ps + SeriesValues(q.bucket.value, scope);
    var columns := [Word(") SELECT b.bucket"), AsBucket] + FilledColumns(q.aggregations);
    var tail := [Word(" FROM buckets b LEFT JOIN measured m ON m.bucket = b.bucket")] + OrderClause(order) + LimitClause(q.limit, ps).ts;
    SeriesNames(n);
    FilledNames(q.aggregations);
    HeadNames();
    NamesConcat([Word(") SELECT b.bucket"), AsBucket], FilledColumns(q.aggregations));
    NamesConcat(SeriesText(n), measured.ts);
    NamesConcat(SeriesText(n) + measured.ts, columns);
    NamesConcat(SeriesText(n) + measured.ts + columns, tail);
    PlainNames(tail);
  }

  lemma SeriesNames(n: nat)
    ensures NamesOf(SeriesText(n)) == {AsBucket}
  {
    var ts := SeriesText(n);
    assert ts[16] == AsBucket;
  }

  lemma HeadNames()
    ensures NamesOf([Word(") SELECT b.bucket"), AsBucket]) == {AsBucket}
  {
    assert [Word(") SELECT b.bucket"), AsBucket][1] == AsBucket;
  }

  /** The text alone says which columns the answer has. */
  lemma TextNames(q: Query, scope: Scope, env: Env)
    requires Compile(q, scope, env).Some?
    ensures NamesOf(Compile(q, scope, env).value.ts) == Columns(ShapeOf(q))
  {
    hide MeasuredText, OrderText, FillText, Columns;
    var m := MeasuredText(q, scope, env).value;
    MeasuredNames(q, scope, env);
    var order := OrderText(q, if Set(q.fill) then 0 else |OrNone(q.groupBy)|).value;
    if Set(q.fill) {
      FillNames(m, q, scope, order);
    } else {
      var rest := OrderClause(order) + LimitClause(q.limit, m.ps).ts;
      assert m.ts + OrderClause(order) + LimitClause(q.limit, m.ps).ts == m.ts + rest;
      NamesConcat(m.ts, rest);
      PlainNames(rest);
    }
  }

  /** Two queries that compile to one text have answers of one shape, whatever the scopes. */
  lemma SameTextSameShape(a: Query, b: Query, s: Scope, t: Scope, env: Env)
    requires Compile(a, s, env).Some? && Compile(b, t, env).Some?
    requires Compile(a, s, env).value.ts == Compile(b, t, env).value.ts
    ensures ShapeOf(a) == ShapeOf(b)
  {
    hide Compile;
    TextNames(a, s, env);
    TextNames(b, t, env);
    ColumnsDecide(ShapeOf(a), ShapeOf(b));
  }

  // ---------------------------------------------------------------------------
  // The statement with its values in place
  // ---------------------------------------------------------------------------

  datatype Piece = Text(t: Tok) | Val(v: V)

  /** Every placeholder replaced by what is bound at its number. */
  function Resolved(ts: seq<Tok>, all: seq<V>): seq<Piece> {
    seq(|ts|, i requires 0 <= i < |ts| =>
      if ts[i].E? && ts[i].t.ParamT? && 1 <= ts[i].t.n <= |all| then Val(all[ts[i].t.n - 1]) else Text(ts[i]))
  }

  /** `date_trunc(unit, time AT TIME ZONE zone) AT TIME ZONE zone`. */
  function BucketPieces(b: Bucket): seq<Piece> {
    var unit, zone := Val(VText(UnitName(b.unit))), Val(VText(b.timezone));
    [Text(Word("(date_trunc(")), unit, Text(Word(", ")), Text(E(ColumnT(Time))), Text(Word(" AT TIME ZONE ")),
     zone, Text(Word(") AT TIME ZONE ")), zone, Text(Word(")"))]
  }

  /** The same truncation of the window's two ends, and a step of one unit between. */
  function SeriesPieces(b: Bucket, scope: Scope): seq<Piece> {
    var unit, zone := Val(VText(UnitName(b.unit))), Val(VText(b.timezone));
    [Text(Word("WITH buckets AS (SELECT generate_series(date_trunc(")), unit, Text(Word(", ")), Val(VTime(scope.from)),
     Text(Word("::timestamptz AT TIME ZONE ")), zone, Text(Word("), date_trunc(")), unit, Text(Word(", (")),
     Val(VTime(scope.to)), Text(Word("::timestamptz - interval '1 microsecond') AT TIME ZONE ")), zone, Text(Word("), ")),
     Val(VText(StepName(b.unit))), Text(Word("::interval) AT TIME ZONE ")), zone, Text(AsBucket), Text(Word("), measured AS ("))]
  }

  lemma BucketResolved(b: Bucket, ps: seq<V>, all: seq<V>)
    requires BucketText(b, ps).ps <= all
    ensures Resolved(BucketText(b, ps).ts, all) == BucketPieces(b)
  {
    assert all[|ps|] == VText(UnitName(b.unit)) && all[|ps| + 1] == VText(b.timezone);
  }

  lemma SeriesResolved(ps: seq<V>, b: Bucket, scope: Scope, all: seq<V>)
    requires ps + SeriesValues(b, scope) <= all
    ensures Resolved(SeriesText(|ps|), all) == SeriesPieces(b, scope)
  {
    hide UnitName, StepName;
    var n := |ps|;
    assert all[n] == VText(UnitName(b.unit)) && all[n + 1] == VText(b.timezone) && all[n + 2] == VText(StepName(b.unit));
    assert all[n + 3] == VTime(scope.from) && all[n + 4] == VTime(scope.to);
  }

  lemma {:induction false} JoinedHead(items: seq<seq<Tok>>)
    requires items != []
    ensures items[0] <= Joined(items)
    decreases |items|
  {
    if |items| > 1 { JoinedHead(Front(items)); }
  }

  /** A bucketed query selects its bucket first. */
  lemma BucketFirst(q: Query, ps: seq<V>)
    requires q.aggregations != [] && q.bucket.Some? && SelectList(q, ps).Some?
    ensures var sel := SelectList(q, ps).value;
            BucketText(q.bucket.value, ps).ts <= Joined(sel.items) && BucketText(q.bucket.value, ps).ps <= sel.ps
  {
    hide BucketText, PushGroups, PushValues, PushTotal, Joined;
    var sel := SelectList(q, ps).value;
    assert sel.items[0] == BucketText(q.bucket.value, ps).ts + [AsBucket];
    JoinedHead(sel.items);
  }
}
