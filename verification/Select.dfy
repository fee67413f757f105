/**
 * A statement's tokens read as the query they spell, by their own words, and
 * what a database makes of one: rows kept, grouped, folded, sorted and cut. What
 * of PostgreSQL's meaning is taken for granted is all here.
 */
module Select {
  import opened Sequences
  import opened Filters
  import opened Sql
  import opened Statements
  import A = Aggregates

  /** What the driver hands back for one column of one row. */
  datatype Raw = RNull | RText(s: string) | RNum(n: real) | RTime(t: int)

  type RawRow = map<Tok, Raw>

  // ---------------------------------------------------------------------------
  // What a statement spells
  // ---------------------------------------------------------------------------

  datatype Scalar = Read(e: Expr) | Epoch(c: Column)

  datatype Fold = Rows | Distinct(e: Expr) | Folded(name: string, x: Scalar) | Continuous(p: nat, x: Scalar)

  /** A column of the output: one value of a row, the start of its unit, a fold of a group, or that summed over all groups. */
  datatype Output = Plainly(e: Expr) | Truncated(unit: nat, zone: nat, back: nat) | Grouped(f: Fold) | Over(f: Fold)

  datatype Item = Item(out: Output, name: Tok)

  datatype Core = Core(items: seq<Item>, cond: Expr, group: seq<nat>)

  datatype Term = Term(name: Tok, descending: bool, nullsLast: bool)

  datatype Finish = Finish(order: seq<Term>, limit: Option<nat>)

  /** The parameters of a generated series, in the order they are read. */
  datatype Steps = Steps(unit: nat, from: nat, zone: nat, unit2: nat, to: nat, zone2: nat, step: nat, zone3: nat)

  datatype JoinColumn = JoinColumn(of: nat, zero: bool, name: Tok)

  datatype Statement = Simple(core: Core, finish: Finish) | Filled(steps: Steps, core: Core, columns: seq<JoinColumn>, finish: Finish)

  // ---------------------------------------------------------------------------
  // Reading
  // ---------------------------------------------------------------------------

  /** The tokens up to the first that is not of a kind. */
  function Span(ts: seq<Tok>, kind: Tok -> bool): (n: nat)
    ensures n <= |ts|
  {
    if ts == [] || !kind(ts[0]) then 0 else 1 + Span(ts[1..], kind)
  }

  predicate IsE(t: Tok) { t.E? }

  predicate IsParam(t: Tok) { t.E? && t.t.ParamT? }

  /** The number of a placeholder; nothing is bound at zero. */
  function ParamNo(t: Tok): nat { if IsParam(t) then t.t.n else 0 }

  predicate Unnamed(t: Tok) { !Alias(t) }

  predicate IsOrdinal(t: Tok) { t.Ordinal? || t == E(Comma) }

  function Unlift(ts: seq<Tok>): seq<Token>
    requires forall t | t in ts :: t.E?
  {
    seq(|ts|, i requires 0 <= i < |ts| => ts[i].t)
  }

  /** An expression, whole. */
  function ReadExpr(ts: seq<Tok>): Option<Expr> {
    if forall t | t in ts :: t.E? then
      match Parse(Unlift(ts), 0)
      case Some((e, rest)) => if rest == [] then Some(e) else None
      case None => None
    else None
  }

  function ReadScalar(ts: seq<Tok>): Option<Scalar> {
    if |ts| == 3 && ts[0] == Word("(extract(epoch from ") && ts[1].E? && ts[1].t.ColumnT? && ts[2] == Word(") * 1000)")
    then Some(Epoch(ts[1].t.c))
    else
      match ReadExpr(ts)
      case None => None
      case Some(e) => Some(Read(e))
  }

  function ReadFold(ts: seq<Tok>): Option<Fold> {
    if ts == [Word("count(*)::double precision")] then Some(Rows)
    else if |ts| < 3 || !ts[0].Word? then None
    else if ts[0].s == "count(DISTINCT " then
      match (ReadExpr(ts[1..|ts| - 1]), Last(ts) == Word(")::double precision"))
      case (Some(e), true) => Some(Distinct(e))
      case _ => None
    else if ts[0].s in ["sum", "avg", "min", "max"] then
      match (ReadScalar(ts[2..|ts| - 1]), ts[1] == E(LParen) && Last(ts) == Word(")::double precision"))
      case (Some(x), true) => Some(Folded(ts[0].s, x))
      case _ => None
    else if ts[0].s == "(percentile_cont(" && |ts| >= 4 && IsParam(ts[1]) then
      match (ReadScalar(ts[3..|ts| - 1]),
             ts[2] == Word("::double precision) WITHIN GROUP (ORDER BY ") && Last(ts) == Word("))::double precision"))
      case (Some(x), true) => Some(Continuous(ts[1].t.n, x))
      case _ => None
    else None
  }

  function ReadOutput(ts: seq<Tok>): Option<Output> {
    if |ts| == 9 && ts[0] == Word("(date_trunc(") then
      if && IsParam(ts[1]) && ts[2] == Word(", ") && ts[3] == E(ColumnT(Time)) && ts[4] == Word(" AT TIME ZONE ")
         && IsParam(ts[5]) && ts[6] == Word(") AT TIME ZONE ") && IsParam(ts[7]) && ts[8] == Word(")")
      then Some(Truncated(ts[1].t.n, ts[5].t.n, ts[7].t.n)) else None
    else if |ts| >= 2 && ts[0] == Word("sum(") && Last(ts) == Word(") OVER ()") then
      match ReadFold(ts[1..|ts| - 1])
      case None => None
      case Some(f) => Some(Over(f))
    else if ts != [] && ts[0].E? then
      match ReadExpr(ts)
      case None => None
      case Some(e) => Some(Plainly(e))
    else
      match ReadFold(ts)
      case None => None
      case Some(f) => Some(Grouped(f))
  }

  /** Outputs each under its name, separated by commas; and what stands after them. */
  function ReadItems(ts: seq<Tok>): Option<(seq<Item>, seq<Tok>)>
    decreases |ts|
  {
    var n := Span(ts, Unnamed);
    if n == |ts| then None
    else
      match ReadOutput(ts[..n])
      case None => None
      case Some(o) =>
        var item, rest := Item(o, ts[n]), ts[n + 1..];
        if rest != [] && rest[0] == E(Comma) then
          match ReadItems(rest[1..])
          case None => None
          case Some((items, after)) => Some(([item] + items, after))
        else Some(([item], rest))
  }

  function ReadOrdinals(ts: seq<Tok>): Option<seq<nat>> {
    if ts == [] || !Last(ts).Ordinal? then None
    else if |ts| == 1 then Some([ts[0].n])
    else if ts[|ts| - 2] != E(Comma) then None
    else
      match ReadOrdinals(ts[..|ts| - 2])
      case None => None
      case Some(before) => Some(before + [Last(ts).n])
  }

  /** `SELECT items FROM "log_entries" WHERE condition`, and GROUP BY ordinals if there is that. */
  function ReadCore(ts: seq<Tok>): Option<(Core, seq<Tok>)> {
    if ts == [] || ts[0] != Word("SELECT ") then None
    else
      match ReadItems(ts[1..])
      case None => None
      case Some((items, rest)) =>
        if rest == [] || rest[0] != Word(" FROM \"log_entries\" WHERE ") then None
        else ReadWhere(items, rest[1..])
  }

  function ReadWhere(items: seq<Item>, ts: seq<Tok>): Option<(Core, seq<Tok>)> {
    var n := Span(ts, IsE);
    match ReadExpr(ts[..n])
    case None => None
    case Some(cond) =>
      var rest := ts[n..];
      if rest == [] || rest[0] != Word(" GROUP BY ") then Some((Core(items, cond, []), rest))
      else
        var m := Span(rest[1..], IsOrdinal);
        match ReadOrdinals(rest[1..1 + m])
        case None => None
        case Some(group) => Some((Core(items, cond, group), rest[1 + m..]))
  }

  /** The column a reference is to. */
  function Referred(t: Tok): Option<Tok> {
    match t
    case RefBucket => Some(AsBucket)
    case RefGroup(i) => if i >= 0 then Some(AsGroup(i)) else None
    case RefValue(i) => if i >= 0 then Some(AsValue(i)) else None
    case _ => None
  }

  predicate IsOrder(t: Tok) { Referred(t).Some? || t == E(Comma) || t in [Word(" ASC"), Word(" DESC"), Word(" NULLS LAST")] }

  /** One term: a column, a direction, and whether nulls are told to come last. */
  function ReadTerm(ts: seq<Tok>): Option<Term> {
    if (|ts| == 2 || (|ts| == 3 && ts[2] == Word(" NULLS LAST"))) && Referred(ts[0]).Some? && ts[1] in [Word(" ASC"), Word(" DESC")]
    then Some(Term(Referred(ts[0]).value, ts[1] == Word(" DESC"), |ts| == 3)) else None
  }

  predicate NotComma(t: Tok) { t != E(Comma) }

  function ReadTerms(ts: seq<Tok>): Option<seq<Term>>
    decreases |ts|
  {
    var n := Span(ts, NotComma);
    match ReadTerm(ts[..n])
    case None => None
    case Some(term) =>
      if n == |ts| then Some([term])
      else
        match ReadTerms(ts[n + 1..])
        case None => None
        case Some(more) => Some([term] + more)
  }

  function ReadFinish(ts: seq<Tok>): Option<Finish> {
    if ts == [] || ts[0] != Word(" ORDER BY ") then ReadLimit([], ts)
    else
      var n := Span(ts[1..], IsOrder);
      match ReadTerms(ts[1..1 + n])
      case None => None
      case Some(order) => ReadLimit(order, ts[1 + n..])
  }

  function ReadLimit(order: seq<Term>, ts: seq<Tok>): Option<Finish> {
    if ts == [] then Some(Finish(order, None))
    else if |ts| == 2 && ts[0] == Word(" LIMIT ") && IsParam(ts[1]) then Some(Finish(order, Some(ts[1].t.n)))
    else None
  }

  /** From the first truncated end of a series to the second. */
  predicate StepsOpen(ts: seq<Tok>)
    requires |ts| == 18
  {
    && ts[0] == Word("WITH buckets AS (SELECT generate_series(date_trunc(") && IsParam(ts[1]) && ts[2] == Word(", ")
    && IsParam(ts[3]) && ts[4] == Word("::timestamptz AT TIME ZONE ") && IsParam(ts[5]) && ts[6] == Word("), date_trunc(")
    && IsParam(ts[7]) && ts[8] == Word(", (")
  }

  /** From there to where the measured query begins. */
  predicate StepsClose(ts: seq<Tok>)
    requires |ts| == 18
  {
    && IsParam(ts[9]) && ts[10] == Word("::timestamptz - interval '1 microsecond') AT TIME ZONE ") && IsParam(ts[11])
    && ts[12] == Word("), ") && IsParam(ts[13]) && ts[14] == Word("::interval) AT TIME ZONE ") && IsParam(ts[15])
    && ts[16] == AsBucket && ts[17] == Word("), measured AS (")
  }

  /** The series of the starts of units between two instants, under the name of the bucket. */
  function ReadSteps(ts: seq<Tok>): Option<Steps> {
    if |ts| == 18 && StepsOpen(ts) && StepsClose(ts) then
      Some(Steps(ParamNo(ts[1]), ParamNo(ts[3]), ParamNo(ts[5]), ParamNo(ts[7]),
                 ParamNo(ts[9]), ParamNo(ts[11]), ParamNo(ts[13]), ParamNo(ts[15])))
    else None
  }

  function ReadColumn(ts: seq<Tok>, name: Tok): Option<JoinColumn> {
    if |ts| == 1 && ts[0].Measured? then Some(JoinColumn(ts[0].m, false, name))
    else if |ts| == 3 && ts[0] == Word("coalesce(") && ts[1].Measured? && ts[2] == Word(", 0)")
    then Some(JoinColumn(ts[1].m, true, name))
    else None
  }

  /** Columns of the measured query, each behind a comma and under its name; and what stands after them. */
  function ReadColumns(ts: seq<Tok>): Option<(seq<JoinColumn>, seq<Tok>)>
    decreases |ts|
  {
    if ts == [] || ts[0] != E(Comma) then Some(([], ts))
    else
      var n := Span(ts[1..], Unnamed);
      if 1 + n == |ts| then None
      else
        match (ReadColumn(ts[1..1 + n], ts[1 + n]), ReadColumns(ts[n + 2..]))
        case (Some(c), Some((more, rest))) => Some(([c] + more, rest))
        case _ => None
  }

  function ReadFilled(ts: seq<Tok>): Option<Statement>
    requires |ts| >= 18
  {
    match (ReadSteps(ts[..18]), ReadCore(ts[18..]))
    case (Some(steps), Some((core, rest))) =>
      if |rest| < 2 || rest[0] != Word(") SELECT b.bucket") || rest[1] != AsBucket then None
      else (
        match ReadColumns(rest[2..])
        case None => None
        case Some((columns, after)) =>
          if after == [] || after[0] != Word(" FROM buckets b LEFT JOIN measured m ON m.bucket = b.bucket") then None
          else
            match ReadFinish(after[1..])
            case None => None
            case Some(finish) => Some(Filled(steps, core, columns, finish)))
    case _ => None
  }

  function ReadStatement(ts: seq<Tok>): Option<Statement> {
    if ts != [] && ts[0] == Word("SELECT ") then
      match ReadCore(ts)
      case None => None
      case Some((core, rest)) =>
        match ReadFinish(rest)
        case None => None
        case Some(finish) => Some(Simple(core, finish))
    else if |ts| >= 18 then ReadFilled(ts) else None
  }

  // ---------------------------------------------------------------------------
  // One row, and the rows of one group
  // ---------------------------------------------------------------------------

  function Bound(ps: seq<V>, n: nat): V { if 1 <= n <= |ps| then ps[n - 1] else VError }

  function UnitOf(s: string): Option<Unit> {
    if s == "minute" then Some(Minute) else if s == "hour" then Some(Hour) else if s == "day" then Some(Day)
    else if s == "week" then Some(Week) else if s == "month" then Some(Month) else None
  }

  function StepOf(s: string): Option<Unit> {
    if s == "1 minute" then Some(Minute) else if s == "1 hour" then Some(Hour) else if s == "1 day" then Some(Day)
    else if s == "1 week" then Some(Week) else if s == "1 month" then Some(Month) else None
  }

  /** `date_trunc(unit, t AT TIME ZONE zone)`: local time. */
  function TruncatedLocal(unit: V, t: int, zone: V, env: Env): Option<int> {
    match (unit, zone)
    case (VText(u), VText(z)) => if UnitOf(u).Some? then Some(env.truncate(UnitOf(u).value, env.toLocal(z, t))) else None
    case _ => None
  }

  function ScalarV(x: Scalar, ps: seq<V>, row: Row, env: Env): V {
    match x
    case Read(e) => Eval(e, ps, row, env)
    case Epoch(c) => var v := OfCell(ColumnCell(c, row)); if v.VTime? then VNum(v.t as real) else if v.VNull? then VNull else VError
  }

  /** The numbers of the rows that have one; None where one has something else. */
  function NumbersV(x: Scalar, ps: seq<V>, rows: seq<Row>, env: Env): Option<seq<real>> {
    if rows == [] then Some([])
    else
      match (NumbersV(x, ps, Front(rows), env), ScalarV(x, ps, Last(rows), env))
      case (Some(before), VNum(n)) => Some(before + [n])
      case (Some(before), VNull) => Some(before)
      case _ => None
  }

  function TextsV(e: Expr, ps: seq<V>, rows: seq<Row>, env: Env): Option<seq<string>> {
    if rows == [] then Some([])
    else
      match (TextsV(e, ps, Front(rows), env), Eval(e, ps, Last(rows), env))
      case (Some(before), VText(s)) => Some(before + [s])
      case (Some(before), VNull) => Some(before)
      case _ => None
  }

  function FoldV(f: Fold, ps: seq<V>, rows: seq<Row>, env: Env): V {
    match f
    case Rows => VNum(|rows| as real)
    case Distinct(e) => (
      match TextsV(e, ps, rows, env)
      case None => VError
      case Some(ts) => VNum(|set t | t in ts| as real))
    case Folded(name, x) => (
      match NumbersV(x, ps, rows, env)
      case None => VError
      case Some(xs) =>
        if xs == [] then VNull
        else if name == "sum" then VNum(A.Sum(xs))
        else if name == "avg" then VNum(A.Average(xs))
        else if name == "min" then VNum(A.Least(xs))
        else if name == "max" then VNum(A.Most(xs))
        else VError)
    case Continuous(p, x) => (
      match (NumbersV(x, ps, rows, env), Bound(ps, p))
      case (Some(xs), VNum(q)) => if q < 0.0 || q > 1.0 then VError else if xs == [] then VNull else VNum(A.Quantile(xs, q))
      case _ => VError)
  }

  /** What a column that can be grouped by has in one row. */
  function RowV(o: Output, ps: seq<V>, row: Row, env: Env): V {
    match o
    case Plainly(e) => Eval(e, ps, row, env)
    case Truncated(unit, zone, back) => (
      match (TruncatedLocal(Bound(ps, unit), row.time, Bound(ps, zone), env), Bound(ps, back))
      case (Some(local), VText(z)) => VTime(env.toInstant(z, local))
      case _ => VError)
    case _ => VError
  }

  // ---------------------------------------------------------------------------
  // Keeping, grouping, folding
  // ---------------------------------------------------------------------------

  function Kept(cond: Expr, ps: seq<V>, table: seq<Row>, env: Env): seq<Row> {
    if table == [] then []
    else Kept(cond, ps, Front(table), env) + if Eval(cond, ps, Last(table), env) == VBool(true) then [Last(table)] else []
  }

  /** What a row is grouped under: the columns at the ordinals. */
  function KeyV(c: Core, ps: seq<V>, row: Row, env: Env): seq<V> {
    seq(|c.group|, i requires 0 <= i < |c.group| =>
      if 1 <= c.group[i] <= |c.items| then RowV(c.items[c.group[i] - 1].out, ps, row, env) else VError)
  }

  function MembersV(c: Core, ps: seq<V>, rows: seq<Row>, key: seq<V>, env: Env): seq<Row> {
    if rows == [] then []
    else MembersV(c, ps, Front(rows), key, env) + if KeyV(c, ps, Last(rows), env) == key then [Last(rows)] else []
  }

  /** The keys there are, each once, in no order of their own; without GROUP BY the rows are one group, even if there are none. */
  ghost predicate KeysV(keys: seq<seq<V>>, c: Core, ps: seq<V>, rows: seq<Row>, env: Env) {
    if c.group == [] then keys == [[]]
    else
      && (forall i, j | 0 <= i < j < |keys| :: keys[i] != keys[j])
      && (forall k :: k in keys <==> exists row :: row in rows && KeyV(c, ps, row, env) == k)
  }

  /** The numbers of a fold over every group; None where one of them is something else. */
  function OverAll(f: Fold, c: Core, ps: seq<V>, keys: seq<seq<V>>, rows: seq<Row>, env: Env): Option<seq<real>> {
    if keys == [] then Some([])
    else
      match (OverAll(f, c, ps, Front(keys), rows, env), FoldV(f, ps, MembersV(c, ps, rows, Last(keys), env), env))
      case (Some(before), VNum(n)) => Some(before + [n])
      case (Some(before), VNull) => Some(before)
      case _ => None
  }

  /** What the i-th item is for one group. A column that is not folded must be one that is grouped by. */
  function ItemV(c: Core, i: nat, ps: seq<V>, keys: seq<seq<V>>, key: seq<V>, rows: seq<Row>, env: Env): V
    requires i < |c.items|
  {
    match c.items[i].out
    case Grouped(f) => FoldV(f, ps, MembersV(c, ps, rows, key, env), env)
    case Over(f) => (
      match OverAll(f, c, ps, keys, rows, env)
      case None => VError
      case Some(xs) => if xs == [] then VNull else VNum(A.Sum(xs)))
    case _ =>
      var mine := MembersV(c, ps, rows, key, env);
      if i + 1 in c.group && mine != [] then RowV(c.items[i].out, ps, mine[0], env) else VError
  }

  /** The driver's word for a value. */
  predicate Handed(v: V, r: Raw) {
    match v
    case VNull => r == RNull
    case VText(s) => r == RText(s)
    case VNum(n) => r == RNum(n)
    case VTime(t) => r == RTime(t)
    case _ => false
  }

  ghost predicate LineV(raw: RawRow, c: Core, ps: seq<V>, keys: seq<seq<V>>, key: seq<V>, rows: seq<Row>, env: Env) {
    forall i | 0 <= i < |c.items| ::
      c.items[i].name in raw && Handed(ItemV(c, i, ps, keys, key, rows, env), raw[c.items[i].name])
  }

  /** One line for each key. */
  ghost predicate Measures(c: Core, ps: seq<V>, table: seq<Row>, env: Env, raws: seq<RawRow>) {
    var rows := Kept(c.cond, ps, table, env);
    exists keys :: KeysV(keys, c, ps, rows, env) && |raws| == |keys| &&
      forall i | 0 <= i < |raws| :: LineV(raws[i], c, ps, keys, keys[i], rows, env)
  }

  // ---------------------------------------------------------------------------
  // Sorting and cutting
  // ---------------------------------------------------------------------------

  function At(raw: RawRow, column: Tok): Raw { if column in raw then raw[column] else RNull }

  function CellOf(r: Raw): Cell {
    match r
    case RNull => CNull
    case RText(s) => CText(s)
    case RNum(n) => CNum(n)
    case RTime(t) => CTime(t)
  }

  /** Nulls stand last when ascending and first when descending, unless told to stand last. */
  predicate Before(t: Term, x: Cell, y: Cell, env: Env) {
    if x == CNull && y == CNull then false
    else if x == CNull then t.descending && !t.nullsLast
    else if y == CNull then !t.descending || t.nullsLast
    else if t.descending then CellOrder(Lt, y, x, env) == T
    else CellOrder(Lt, x, y, env) == T
  }

  predicate NoLater(terms: seq<Term>, x: RawRow, y: RawRow, env: Env) {
    if terms == [] then true
    else
      var t := terms[0];
      var a, b := CellOf(At(x, t.name)), CellOf(At(y, t.name));
      Before(t, a, b, env) || (!Before(t, b, a, env) && NoLater(terms[1..], x, y, env))
  }

  predicate Sorted(terms: seq<Term>, raws: seq<RawRow>, env: Env) {
    forall i, j | 0 <= i < j < |raws| :: NoLater(terms, raws[i], raws[j], env)
  }

  function CutOff(limit: Option<nat>, ps: seq<V>, raws: seq<RawRow>): Option<seq<RawRow>> {
    match limit
    case None => Some(raws)
    case Some(n) =>
      match Bound(ps, n)
      case VNum(x) => if x.Floor < 0 then None else Some(raws[..Min(x.Floor, |raws|)])
      case _ => None
  }

  // ---------------------------------------------------------------------------
  // The series and the join
  // ---------------------------------------------------------------------------

  function SeriesV(s: Steps, ps: seq<V>, env: Env): Option<seq<int>> {
    match (Bound(ps, s.from), Bound(ps, s.to), Bound(ps, s.step), Bound(ps, s.zone3))
    case (VTime(from), VTime(to), VText(step), VText(zone)) => (
      match (TruncatedLocal(Bound(ps, s.unit), from, Bound(ps, s.zone), env),
             TruncatedLocal(Bound(ps, s.unit2), env.justBefore(to), Bound(ps, s.zone2), env), StepOf(step))
      case (Some(first), Some(last), Some(unit)) =>
        var local := env.series(unit, first, last);
        Some(seq(|local|, i requires 0 <= i < |local| => env.toInstant(zone, local[i])))
      case _ => None)
    case _ => None
  }

  /** The measured lines of one instant. */
  function Matching(at: int, measured: seq<RawRow>): seq<RawRow> {
    if measured == [] then []
    else Matching(at, Front(measured)) + if At(Last(measured), AsBucket) == RTime(at) then [Last(measured)] else []
  }

  datatype Pair = Pair(at: int, measured: Option<RawRow>)

  /** LEFT JOIN: an instant once for each line it matches, and once alone if it matches none. */
  function PairsOf(at: int, measured: seq<RawRow>): seq<Pair> {
    var mine := Matching(at, measured);
    if mine == [] then [Pair(at, None)] else seq(|mine|, i requires 0 <= i < |mine| => Pair(at, Some(mine[i])))
  }

  function Pairs(instants: seq<int>, measured: seq<RawRow>): seq<Pair> {
    if instants == [] then [] else Pairs(Front(instants), measured) + PairsOf(Last(instants), measured)
  }

  function ColumnRaw(c: JoinColumn, p: Pair): Raw {
    var r := if p.measured.Some? then At(p.measured.value, AsValue(c.of)) else RNull;
    if c.zero && r == RNull then RNum(0.0) else r
  }

  ghost predicate JoinedLine(raw: RawRow, p: Pair, columns: seq<JoinColumn>) {
    && AsBucket in raw && raw[AsBucket] == RTime(p.at)
    && forall i | 0 <= i < |columns| :: columns[i].name in raw && raw[columns[i].name] == ColumnRaw(columns[i], p)
  }

  /** One line for each pair, in no order of their own. */
  ghost predicate Joins(steps: Steps, columns: seq<JoinColumn>, ps: seq<V>, measured: seq<RawRow>, env: Env, raws: seq<RawRow>) {
    SeriesV(steps, ps, env).Some? &&
    var pairs := Pairs(SeriesV(steps, ps, env).value, measured);
    exists order: seq<nat> ::
      && |order| == |pairs| == |raws| && (forall i | 0 <= i < |order| :: order[i] < |pairs|)
      && (forall i, j | 0 <= i < j < |order| :: order[i] != order[j])
      && (forall i | 0 <= i < |order| :: JoinedLine(raws[i], pairs[order[i]], columns))
  }

  /** What a database may give back for a statement. */
  ghost predicate Returns(st: Statement, ps: seq<V>, table: seq<Row>, env: Env, raws: seq<RawRow>) {
    match st
    case Simple(core, finish) =>
      exists lines ::
        && Measures(core, ps, table, env, lines) && Sorted(finish.order, lines, env)
        && CutOff(finish.limit, ps, lines) == Some(raws)
    case Filled(steps, core, columns, finish) =>
      exists measured, lines ::
        && Measures(core, ps, table, env, measured) && Joins(steps, columns, ps, measured, env, lines)
        && Sorted(finish.order, lines, env) && CutOff(finish.limit, ps, lines) == Some(raws)
  }
}
