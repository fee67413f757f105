/**
 * What a query asks of the rows of a table: which of them, in which groups, what
 * of each group, in which order and how many. Nothing here knows of SQL.
 */
module Answers {
  import opened Sequences
  import opened Filters
  import opened Statements
  import Compiler
  import CompilerProof
  import A = Aggregates

  type Scope = Compiler.Scope

  /** One line of an answer; `total` is there when the query asks for one. */
  datatype QueryRow = QueryRow(bucket: Option<int>, group: seq<Option<string>>, value: seq<Option<real>>, total: Option<Option<real>>)

  // ---------------------------------------------------------------------------
  // Which rows
  // ---------------------------------------------------------------------------

  /** In the project, in the window, and meeting the filter. */
  ghost predicate Chosen(q: Query, scope: Scope, row: Row, env: Env) {
    CompilerProof.InScope(scope, row) && (q.filter.Some? ==> Meaning(q.filter.value, row, env) == T)
  }

  ghost function Picked(q: Query, scope: Scope, table: seq<Row>, env: Env): seq<Row> {
    if table == [] then []
    else Picked(q, scope, Front(table), env) + if Chosen(q, scope, Last(table), env) then [Last(table)] else []
  }

  // ---------------------------------------------------------------------------
  // What of a list of rows
  // ---------------------------------------------------------------------------

  /** A field read as a number: a JSON number, a severity, an instant. */
  function FieldNumber(f: Field, row: Row): Option<real> {
    match f
    case Attribute(path, _) => LeafNumber(path, row)
    case ColumnOf(Severity) => if row.severity.Some? then Some(row.severity.value as real) else None
    case ColumnOf(Time) => Some(row.time as real)
    case ColumnOf(IngestedAt) => Some(row.ingestedAt as real)
    case _ => None
  }

  /** The numbers the rows hold there, of the rows that hold one. */
  function Numbers(f: Field, rows: seq<Row>): seq<real> {
    if rows == [] then []
    else
      var n := FieldNumber(f, Last(rows));
      Numbers(f, Front(rows)) + if n.Some? then [n.value] else []
  }

  function Texts(f: Field, rows: seq<Row>, env: Env): seq<string> {
    if rows == [] then []
    else
      var t := FieldText(f, Last(rows), env);
      Texts(f, Front(rows), env) + if t.Some? then [t.value] else []
  }

  /** What an aggregation says of some rows; nothing, where there is nothing to say it of. */
  function ValueOf(a: Aggregation, rows: seq<Row>, env: Env): Option<real> {
    match a
    case Count => Some(|rows| as real)
    case CountDistinct(f) => Some(|set t | t in Texts(f, rows, env)| as real)
    case Of(measure, f) =>
      var xs := Numbers(f, rows);
      if xs == [] then None
      else
        Some(match measure
             case Sum => A.Sum(xs)
             case Avg => A.Average(xs)
             case Least => A.Least(xs)
             case Most => A.Most(xs))
    case Percentile(f, p) =>
      var xs := Numbers(f, rows);
      if xs == [] then None else Some(A.Quantile(xs, p))
  }

  // ---------------------------------------------------------------------------
  // In which groups
  // ---------------------------------------------------------------------------

  datatype Group = Group(bucket: Option<int>, texts: seq<Option<string>>)

  /** The instant at which the unit began that t is in, by the clock of the zone. */
  function StartOf(b: Bucket, t: int, env: Env): int {
    env.toInstant(b.timezone, env.truncate(b.unit, env.toLocal(b.timezone, t)))
  }

  function GroupOf(q: Query, row: Row, env: Env): Group {
    Group(if q.bucket.Some? then Some(StartOf(q.bucket.value, row.time, env)) else None,
          seq(|OrNone(q.groupBy)|, i requires 0 <= i < |OrNone(q.groupBy)| => FieldText(OrNone(q.groupBy)[i], row, env)))
  }

  /** The rows of one group, in the order of the table. */
  function Members(q: Query, rows: seq<Row>, g: Group, env: Env): seq<Row> {
    if rows == [] then []
    else Members(q, Front(rows), g, env) + if GroupOf(q, Last(rows), env) == g then [Last(rows)] else []
  }

  /** Each group that has a row, once; and where nothing is grouped by, the one group of all rows, be there any or not. */
  ghost predicate Groups(gs: seq<Group>, q: Query, rows: seq<Row>, env: Env) {
    if q.bucket.None? && OrNone(q.groupBy) == [] then gs == [Group(None, [])]
    else
      && (forall i, j | 0 <= i < j < |gs| :: gs[i] != gs[j])
      && (forall g :: g in gs <==> exists row :: row in rows && GroupOf(q, row, env) == g)
  }

  /** What the groups have of the first aggregation, taken together. */
  function TotalValues(q: Query, gs: seq<Group>, rows: seq<Row>, env: Env): seq<real>
    requires q.aggregations != []
  {
    if gs == [] then []
    else
      var v := ValueOf(q.aggregations[0], Members(q, rows, Last(gs), env), env);
      TotalValues(q, Front(gs), rows, env) + if v.Some? then [v.value] else []
  }

  function Summed(xs: seq<real>): Option<real> { if xs == [] then None else Some(A.Sum(xs)) }

  function LineOf(q: Query, gs: seq<Group>, g: Group, rows: seq<Row>, env: Env): QueryRow
    requires q.aggregations != []
  {
    var mine := Members(q, rows, g, env);
    QueryRow(g.bucket, g.texts,
             seq(|q.aggregations|, i requires 0 <= i < |q.aggregations| => ValueOf(q.aggregations[i], mine, env)),
             if Set(q.withTotal) then Some(Summed(TotalValues(q, gs, rows, env))) else None)
  }

  // ---------------------------------------------------------------------------
  // In which order, and how many
  // ---------------------------------------------------------------------------

  function RankOf(key: OrderKey, r: QueryRow): Cell {
    match key
    case ByBucket => if r.bucket.Some? then CTime(r.bucket.value) else CNull
    case ByGroup(i) => if 0 <= i < |r.group| && r.group[i].Some? then CText(r.group[i].value) else CNull
    case ByAggregate(i) => if 0 <= i < |r.value| && r.value[i].Some? then CNum(r.value[i].value) else CNull
  }

  /** x stands before y: something before nothing, and otherwise by the direction asked for. */
  predicate Precedes(descending: bool, x: Cell, y: Cell, env: Env) {
    if x == CNull then false
    else if y == CNull then true
    else if descending then CellOrder(Lt, y, x, env) == T
    else CellOrder(Lt, x, y, env) == T
  }

  /** By the first key on which they differ, if there is one. */
  predicate NotAfter(orders: seq<Ordering>, x: QueryRow, y: QueryRow, env: Env) {
    if orders == [] then true
    else
      var o := orders[0];
      var a, b := RankOf(o.key, x), RankOf(o.key, y);
      Precedes(o.descending, a, b, env) || (!Precedes(o.descending, b, a, env) && NotAfter(orders[1..], x, y, env))
  }

  /** Bucketed answers are chronological unless something else is asked for. */
  function OrdersOf(q: Query): seq<Ordering> {
    if OrNone(q.orderBy) != [] then OrNone(q.orderBy)
    else if q.bucket.Some? then [Ordering(ByBucket, false)] else []
  }

  predicate Arranged(orders: seq<Ordering>, lines: seq<QueryRow>, env: Env) {
    forall i, j | 0 <= i < j < |lines| :: NotAfter(orders, lines[i], lines[j], env)
  }

  function Limited<T>(limit: Option<int>, s: seq<T>): seq<T> {
    if limit.Some? && 0 <= limit.value < |s| then s[..limit.value] else s
  }

  // ---------------------------------------------------------------------------
  // Every bucket of the window
  // ---------------------------------------------------------------------------

  /** The instants at which the units of the window begin, from the one it starts in to the one it ends in. */
  function Starts(b: Bucket, scope: Scope, env: Env): seq<int> {
    var first := env.truncate(b.unit, env.toLocal(b.timezone, scope.from));
    var last := env.truncate(b.unit, env.toLocal(b.timezone, env.justBefore(scope.to)));
    var local := env.series(b.unit, first, last);
    seq(|local|, i requires 0 <= i < |local| => env.toInstant(b.timezone, local[i]))
  }

  /** What the rows of the bucket that starts there have; a sum of nothing counts as zero here. */
  function FilledValue(a: Aggregation, rows: seq<Row>, env: Env): Option<real> {
    var v := ValueOf(a, rows, env);
    if v.None? && a.Of? && a.measure == Sum then Some(0.0) else v
  }

  function FilledLine(q: Query, start: int, rows: seq<Row>, env: Env): QueryRow {
    var mine := Members(q, rows, Group(Some(start), []), env);
    QueryRow(Some(start), [],
             seq(|q.aggregations|, i requires 0 <= i < |q.aggregations| => FilledValue(q.aggregations[i], mine, env)),
             None)
  }

  // ---------------------------------------------------------------------------
  // The answer
  // ---------------------------------------------------------------------------

  /** One number for each place, each once: an arrangement of n things. */
  ghost predicate Arrangement(order: seq<nat>, n: nat) {
    && |order| == n && (forall i | 0 <= i < n :: order[i] < n)
    && forall i, j | 0 <= i < j < n :: order[i] != order[j]
  }

  /** The lines of the answer before the limit. */
  ghost predicate Lines(q: Query, scope: Scope, table: seq<Row>, env: Env, lines: seq<QueryRow>)
    requires q.aggregations != []
  {
    var rows := Picked(q, scope, table, env);
    if Set(q.fill) && q.bucket.Some? then
      var starts := Starts(q.bucket.value, scope, env);
      exists order :: Arrangement(order, |starts|) && |lines| == |starts| &&
        forall i | 0 <= i < |lines| :: lines[i] == FilledLine(q, starts[order[i]], rows, env)
    else
      exists gs :: Groups(gs, q, rows, env) && |lines| == |gs| &&
        forall i | 0 <= i < |lines| :: lines[i] == LineOf(q, gs, gs[i], rows, env)
  }

  /**
   * An answer is one line for each group, or for each bucket of the window where
   * the query is filled, arranged as asked, cut off at the limit.
   */
  ghost predicate IsAnswer(q: Query, scope: Scope, table: seq<Row>, env: Env, out: seq<QueryRow>)
    requires q.aggregations != []
  {
    exists lines :: Lines(q, scope, table, env, lines) && Arranged(OrdersOf(q), lines, env) && out == Limited(q.limit, lines)
  }
}
