/** The filter compiler: a tree in, concatenated text and a parameter list out. */
module Compiler {
  import opened Sequences
  import opened Json
  import opened Filters
  import opened Sql
  import Like

  const MAX_FILTER_DEPTH := 8
  const MAX_IN_VALUES := 200
  const MAX_ATTR_PATH := 8

  /** Text so far and the values bound so far. A placeholder is the position its value was bound at. */
  datatype Emit = Emit(ts: seq<Token>, ps: seq<V>)

  // ---------------------------------------------------------------------------
  // Validation
  // ---------------------------------------------------------------------------

  predicate SegmentChar(c: char) { 'a' <= c <= 'z' || 'A' <= c <= 'Z' || '0' <= c <= '9' || c == '_' }

  predicate Segment(s: string) {
    1 <= |s| <= 128 && SegmentChar(s[0]) && forall i | 0 <= i < |s| :: SegmentChar(s[i]) || s[i] == '.' || s[i] == '-'
  }

  predicate FieldOk(f: Field) {
    f.Attribute? ==> 1 <= |f.path| <= MAX_ATTR_PATH && forall i | 0 <= i < |f.path| :: Segment(f.path[i])
  }

  // ---------------------------------------------------------------------------
  // Field expressions
  // ---------------------------------------------------------------------------

  function TextExpr(f: Field, ps: seq<V>): Emit {
    match f
    case ColumnOf(c) => Emit([ColumnT(c), CastT(TextT)], ps)
    case Attribute(path, _) =>
      Emit([AttributesT, Infix(PathText), ParamT(|ps| + 1), CastT(TextArrayT)], ps + [VPath(path)])
    case Unique =>
      Emit([CoalesceT, LParen, AttributesT, Infix(KeyText), ParamT(|ps| + 1), Comma,
            AttributesT, Infix(KeyText), ParamT(|ps| + 2), Comma,
            AttributesT, Infix(KeyText), ParamT(|ps| + 3), RParen],
           ps + [VText(USER_ID), VText(DEVICE_ID), VText(SESSION_ID)])
  }

  /** One placeholder for the path, used twice. */
  function NumberExpr(path: seq<string>, ps: seq<V>): Emit {
    var leaf := [AttributesT, Infix(PathJson), ParamT(|ps| + 1), CastT(TextArrayT)];
    var cond := [TypeofT, LParen] + leaf + [RParen, Infix(EqOp), NumberLit];
    var value := [LParen] + leaf + [RParen, CastT(NumericT)];
    Emit(Parens([CaseT, WhenT] + cond + [ThenT] + value + [EndT]), ps + [VPath(path)])
  }

  predicate NumericAttribute(f: Field) { f.Attribute? && f.reading == Some(AsNumber) }

  function ValueExpr(f: Field, ps: seq<V>): Emit {
    if NumericAttribute(f) then NumberExpr(f.path, ps) else TextExpr(f, ps)
  }

  /** What `pg` binds for a scalar that the statement casts itself. */
  function Raw(v: Value, env: Env): V { if v.SNum? then VNum(v.n) else VText(ValueText(v, env)) }

  // ---------------------------------------------------------------------------
  // The filter tree
  // ---------------------------------------------------------------------------

  function Parens(ts: seq<Token>): seq<Token> { [LParen] + ts + [RParen] }

  function Negated(e: Emit): Emit { Emit([LParen, NotT] + e.ts + [RParen], e.ps) }

  /** `(l op $n)` */
  function Compared(l: Emit, op: Op, v: V, cast: seq<Token>): Emit {
    Emit(Parens(l.ts + [Infix(op)] + [ParamT(|l.ps| + 1)] + cast), l.ps + [v])
  }

  function ColumnOnly(c: Column, ps: seq<V>): Emit { Emit([ColumnT(c)], ps) }

  function EqExpr(f: Field, v: Value, ps: seq<V>, env: Env): Emit {
    if f.Attribute? && f.reading != Some(AsNumber) && Containable(f.path)
    then Compared(Emit([AttributesT], ps), Holds, VJson(Nest(f.path, ScalarJson(v))), [CastT(JsonbT)])
    else if v == SNull then var l := ValueExpr(f, ps); Emit(Parens(l.ts + [IsNullT]), l.ps)
    else if f.ColumnOf? then Compared(ColumnOnly(f.column, ps), EqOp, OfCell(ColumnValue(f.column, v, env)), [])
    else if NumericAttribute(f) then Compared(NumberExpr(f.path, ps), EqOp, Raw(v, env), [CastT(NumericT)])
    else Compared(TextExpr(f, ps), EqOp, VText(ValueText(v, env)), [])
  }

  /** The branches of an `in`, in order, joined by OR. */
  function EqExprs(f: Field, vs: seq<Value>, ps: seq<V>, env: Env): Emit
    requires vs != []
  {
    if |vs| == 1 then EqExpr(f, vs[0], ps, env)
    else
      var before := EqExprs(f, Front(vs), ps, env);
      var last := EqExpr(f, Last(vs), before.ps, env);
      Emit(before.ts + [Infix(OrOp)] + last.ts, last.ps)
  }

  function Cells(c: Column, vs: seq<Value>, env: Env): seq<V> {
    if vs == [] then [] else Cells(c, Front(vs), env) + [OfCell(ColumnValue(c, Last(vs), env))]
  }

  function InExpr(f: Field, vs: seq<Value>, ps: seq<V>, env: Env): Emit
    requires vs != []
  {
    if f.ColumnOf? then
      Emit(Parens([ColumnT(f.column), Infix(EqOp), AnyT, LParen, ParamT(|ps| + 1), RParen]),
           ps + [VList(Cells(f.column, vs, env))])
    else var e := EqExprs(f, vs, ps, env); Emit(Parens(e.ts), e.ps)
  }

  function OrderOp(o: Order): Op {
    match o
    case Lt => LtOp
    case Lte => LteOp
    case Gt => GtOp
    case Gte => GteOp
  }

  function CompareExpr(o: Order, f: Field, v: Value, ps: seq<V>, env: Env): Emit {
    if f.ColumnOf? then Compared(ColumnOnly(f.column, ps), OrderOp(o), OfCell(ColumnValue(f.column, v, env)), [])
    else if NumericAttribute(f) then Compared(NumberExpr(f.path, ps), OrderOp(o), Raw(v, env), [CastT(NumericT)])
    else Compared(TextExpr(f, ps), OrderOp(o), VText(ValueText(v, env)), [])
  }

  function PatternText(p: Pattern, text: string): string {
    match p
    case Containing => "%" + Like.Escape(text) + "%"
    case Starting => Like.Escape(text) + "%"
    case Ending => "%" + Like.Escape(text)
  }

  function MatchExpr(p: Pattern, f: Field, text: string, ps: seq<V>): Emit {
    var l := TextExpr(f, ps);
    Emit(Parens(l.ts + [LikeT] + [ParamT(|l.ps| + 1)] + [EscapeT]), l.ps + [VText(PatternText(p, text))])
  }

  function ExistsExpr(f: Field, ps: seq<V>): Emit {
    if f.Attribute? && |f.path| == 1 then Compared(Emit([AttributesT], ps), HasKey, VText(f.path[0]), [])
    else if f.Attribute? then
      Emit(Parens([AttributesT, Infix(PathJson), ParamT(|ps| + 1), CastT(TextArrayT), IsNotNullT]), ps + [VPath(f.path)])
    else var l := TextExpr(f, ps); Emit(Parens(l.ts + [IsNotNullT]), l.ps)
  }

  /** None where the compiler throws a `QueryError`. */
  function CompileFilter(f: Filter, ps: seq<V>, depth: nat, env: Env): Option<Emit>
    decreases f
  {
    if depth > MAX_FILTER_DEPTH then None
    else
      match f
      case All(fs) =>
        if fs == [] then Some(Emit([TrueT], ps))
        else (match CompileAll(fs, AndOp, ps, depth + 1, env) case None => None case Some(e) => Some(Emit(Parens(e.ts), e.ps)))
      case Any(fs) =>
        if fs == [] then Some(Emit([FalseT], ps))
        else (match CompileAll(fs, OrOp, ps, depth + 1, env) case None => None case Some(e) => Some(Emit(Parens(e.ts), e.ps)))
      case Not(g) => (match CompileFilter(g, ps, depth + 1, env) case None => None case Some(e) => Some(Negated(e)))
      case Eq(field, v) => if FieldOk(field) then Some(EqExpr(field, v, ps, env)) else None
      case Ne(field, v) => if FieldOk(field) then Some(Negated(EqExpr(field, v, ps, env))) else None
      case In(field, vs) =>
        if !FieldOk(field) || |vs| > MAX_IN_VALUES then None
        else if vs == [] then Some(Emit([FalseT], ps)) else Some(InExpr(field, vs, ps, env))
      case NotIn(field, vs) =>
        if !FieldOk(field) || |vs| > MAX_IN_VALUES then None
        else if vs == [] then Some(Emit([TrueT], ps)) else Some(Negated(InExpr(field, vs, ps, env)))
      case Compare(o, field, v) => if FieldOk(field) then Some(CompareExpr(o, field, v, ps, env)) else None
      case Match(p, field, text) => if FieldOk(field) then Some(MatchExpr(p, field, text, ps)) else None
      case Exists(field) => if FieldOk(field) then Some(ExistsExpr(field, ps)) else None
      case NotExists(field) => if FieldOk(field) then Some(Negated(ExistsExpr(field, ps))) else None
  }

  /** The parts of a group, in order, joined by the group's word. */
  function CompileAll(fs: seq<Filter>, op: Op, ps: seq<V>, depth: nat, env: Env): Option<Emit>
    requires fs != []
    decreases fs
  {
    if |fs| == 1 then CompileFilter(fs[0], ps, depth, env)
    else
      match CompileAll(Front(fs), op, ps, depth, env)
      case None => None
      case Some(before) =>
        match CompileFilter(Last(fs), before.ps, depth, env)
        case None => None
        case Some(last) => Some(Emit(before.ts + [Infix(op)] + last.ts, last.ps))
  }

  /** `project_id = $1::uuid AND time >= $2 AND time < $3`, bound first and always. */
  datatype Scope = Scope(project: string, from: int, to: int)

  function ScopeExpr(scope: Scope): Emit {
    Emit([ProjectT, Infix(EqOp), ParamT(1), CastT(UuidT), Infix(AndOp),
          ColumnT(Time), Infix(GteOp), ParamT(2), Infix(AndOp),
          ColumnT(Time), Infix(LtOp), ParamT(3)],
         [VText(scope.project), VTime(scope.from), VTime(scope.to)])
  }

  /**
   * The WHERE clause of a statement. `selected` is what the select list bound
   * between the scope and the filter. The filter's text follows an AND unparenthesised.
   */
  function Where(scope: Scope, selected: seq<V>, filter: Option<Filter>, env: Env): Option<Emit> {
    var s := ScopeExpr(scope);
    if filter.None? then Some(Emit(s.ts, s.ps + selected))
    else
      match CompileFilter(filter.value, s.ps + selected, 0, env)
      case None => None
      case Some(e) => Some(Emit(s.ts + [Infix(AndOp)] + e.ts, e.ps))
  }
}
