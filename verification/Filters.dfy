/** The filter tree, and what it means over a row, in three-valued logic and without any SQL. */
module Filters {
  import opened Sequences
  import opened Json
  import Like

  datatype Column = Time | Name | Severity | EntryId | IngestedAt

  /** How an attribute is to be read. Saying nothing and saying text are one reading and two queries. */
  datatype Reading = AsText | AsNumber

  datatype Field =
    | ColumnOf(column: Column)
    | Attribute(path: seq<string>, reading: Option<Reading>)
    | Unique

  datatype Value = SStr(s: string) | SNum(n: real) | SBool(b: bool) | SNull

  datatype Order = Lt | Lte | Gt | Gte

  datatype Pattern = Containing | Starting | Ending

  datatype Filter =
    | All(filters: seq<Filter>)
    | Any(filters: seq<Filter>)
    | Not(filter: Filter)
    | Eq(field: Field, value: Value)
    | Ne(field: Field, value: Value)
    | In(field: Field, values: seq<Value>)
    | NotIn(field: Field, values: seq<Value>)
    | Compare(order: Order, field: Field, value: Value)
    | Match(pattern: Pattern, field: Field, text: string)
    | Exists(field: Field)
    | NotExists(field: Field)

  datatype Row = Row(
    project: string, time: int, name: string, severity: Option<int>, entryId: string, ingestedAt: int,
    attributes: map<string, Json>)

  datatype Unit = Minute | Hour | Day | Week | Month

  /**
   * How the database and the driver write and read scalars, and what the
   * database's zones and calendar do: an instant as local time and back, local
   * time cut down to its unit, the local times one unit apart from one to
   * another, and the instant just before one. Nothing below depends on the choice.
   */
  datatype Env = Env(
    numText: real -> string, jsonText: Json -> string, timeText: int -> string,
    toNumber: string -> real, castNumber: string -> real, toTime: string -> int, textBefore: (string, string) -> bool,
    toLocal: (string, int) -> int, toInstant: (string, int) -> int, truncate: (Unit, int) -> int,
    series: (Unit, int, int) -> seq<int>, justBefore: int -> int)

  datatype Tri = T | F | U

  function Truth(b: bool): Tri { if b then T else F }

  function Not3(a: Tri): Tri { if a == T then F else if a == F then T else U }

  function And3(a: Tri, b: Tri): Tri { if a == F || b == F then F else if a == T && b == T then T else U }

  function Or3(a: Tri, b: Tri): Tri { Not3(And3(Not3(a), Not3(b))) }

  const USER_ID := "user.id"
  const DEVICE_ID := "device.id"
  const SESSION_ID := "session.id"

  // ---------------------------------------------------------------------------
  // Reading a row
  // ---------------------------------------------------------------------------

  /** `#>>` and `->>`: JSON null reads as no text at all. */
  function LeafText(j: Option<Json>, env: Env): Option<string> {
    match j
    case None => None
    case Some(JNull) => None
    case Some(JStr(s)) => Some(s)
    case Some(JBool(b)) => Some(BoolText(b))
    case Some(JNum(n)) => Some(env.numText(n))
    case Some(doc) => Some(env.jsonText(doc))
  }

  function BoolText(b: bool): string { if b then "true" else "false" }

  function ColumnText(c: Column, row: Row, env: Env): Option<string> {
    match c
    case Time => Some(env.timeText(row.time))
    case Name => Some(row.name)
    case Severity => if row.severity.Some? then Some(env.numText(row.severity.value as real)) else None
    case EntryId => Some(row.entryId)
    case IngestedAt => Some(env.timeText(row.ingestedAt))
  }

  /** Best available identity: user, then device, then session. */
  function UniqueText(row: Row, env: Env): Option<string> {
    var user := LeafText(Walk(JObj(row.attributes), [USER_ID]), env);
    var device := LeafText(Walk(JObj(row.attributes), [DEVICE_ID]), env);
    if user.Some? then user else if device.Some? then device
    else LeafText(Walk(JObj(row.attributes), [SESSION_ID]), env)
  }

  function FieldText(f: Field, row: Row, env: Env): Option<string> {
    match f
    case ColumnOf(c) => ColumnText(c, row, env)
    case Attribute(path, _) => LeafText(Walk(JObj(row.attributes), path), env)
    case Unique => UniqueText(row, env)
  }

  /** Only a leaf that is genuinely a JSON number. */
  function LeafNumber(path: seq<string>, row: Row): Option<real> {
    match Walk(JObj(row.attributes), path)
    case Some(JNum(n)) => Some(n)
    case _ => None
  }

  /** A column's own value, in its own type. */
  datatype Cell = CText(s: string) | CNum(n: real) | CTime(t: int) | CNull

  function ColumnCell(c: Column, row: Row): Cell {
    match c
    case Time => CTime(row.time)
    case Name => CText(row.name)
    case Severity => if row.severity.Some? then CNum(row.severity.value as real) else CNull
    case EntryId => CText(row.entryId)
    case IngestedAt => CTime(row.ingestedAt)
  }

  /** `String(value)`. */
  function ValueText(v: Value, env: Env): string {
    match v
    case SStr(s) => s
    case SNum(n) => env.numText(n)
    case SBool(b) => BoolText(b)
    case SNull => "null"
  }

  function ValueNumber(v: Value, env: Env): real {
    match v
    case SNum(n) => n
    case SBool(b) => if b then 1.0 else 0.0
    case _ => env.toNumber(ValueText(v, env))
  }

  /** The value read by the database's own cast to `numeric`. */
  function CastNumber(v: Value, env: Env): real {
    if v.SNum? then v.n else env.castNumber(ValueText(v, env))
  }

  /** A value in the type of the column it is compared with. */
  function ColumnValue(c: Column, v: Value, env: Env): Cell {
    if c == Time || c == IngestedAt then
      match v
      case SNum(n) => CTime(n.Floor)
      case _ => CTime(env.toTime(ValueText(v, env)))
    else if v == SNull then CNull
    else if c == Severity then CNum(ValueNumber(v, env))
    else CText(ValueText(v, env))
  }

  function ScalarJson(v: Value): (j: Json)
    ensures Scalar(j)
  {
    match v
    case SStr(s) => JStr(s)
    case SNum(n) => JNum(n)
    case SBool(b) => JBool(b)
    case SNull => JNull
  }

  function CellEq(a: Cell, b: Cell): Tri {
    if a == CNull || b == CNull then U else Truth(a == b)
  }

  function Ordered(o: Order, before: bool, same: bool): bool {
    match o
    case Lt => before
    case Lte => before || same
    case Gt => !before && !same
    case Gte => !before
  }

  function CellOrder(o: Order, a: Cell, b: Cell, env: Env): Tri {
    match (a, b)
    case (CText(x), CText(y)) => Truth(Ordered(o, env.textBefore(x, y), x == y))
    case (CNum(x), CNum(y)) => Truth(Ordered(o, x < y, x == y))
    case (CTime(x), CTime(y)) => Truth(Ordered(o, x < y, x == y))
    case _ => U
  }

  // ---------------------------------------------------------------------------
  // What a filter means
  // ---------------------------------------------------------------------------

  /**
   * Equality, by the shape of the field. Over a text attribute with object keys
   * the question is about the JSON leaf itself and is never unknown, so `ne`
   * holds of a row without the key. Over anything that is extracted first, a row
   * without a value answers neither.
   */
  function EqMeaning(f: Field, v: Value, row: Row, env: Env): Tri {
    match f
    case Attribute(path, reading) =>
      if reading != Some(AsNumber) && Containable(path) then Truth(Walk(JObj(row.attributes), path) == Some(ScalarJson(v)))
      else if reading == Some(AsNumber) then
        var n := LeafNumber(path, row);
        if v == SNull then Truth(n.None?) else if n.None? then U else Truth(n.value == CastNumber(v, env))
      else TextEq(FieldText(f, row, env), v, env)
    case ColumnOf(c) =>
      if v == SNull then Truth(ColumnText(c, row, env).None?)
      else CellEq(ColumnCell(c, row), ColumnValue(c, v, env))
    case Unique => TextEq(UniqueText(row, env), v, env)
  }

  function TextEq(t: Option<string>, v: Value, env: Env): Tri {
    if v == SNull then Truth(t.None?) else if t.None? then U else Truth(t.value == ValueText(v, env))
  }

  function InColumn(c: Column, vs: seq<Value>, row: Row, env: Env): Tri {
    if vs == [] then F
    else Or3(InColumn(c, Front(vs), row, env), CellEq(ColumnCell(c, row), ColumnValue(c, Last(vs), env)))
  }

  function InEqs(f: Field, vs: seq<Value>, row: Row, env: Env): Tri {
    if vs == [] then F else Or3(InEqs(f, Front(vs), row, env), EqMeaning(f, Last(vs), row, env))
  }

  function InMeaning(f: Field, vs: seq<Value>, row: Row, env: Env): Tri {
    if f.ColumnOf? then InColumn(f.column, vs, row, env) else InEqs(f, vs, row, env)
  }

  function CompareMeaning(o: Order, f: Field, v: Value, row: Row, env: Env): Tri {
    if f.ColumnOf? then CellOrder(o, ColumnCell(f.column, row), ColumnValue(f.column, v, env), env)
    else if f.Attribute? && f.reading == Some(AsNumber) then
      var n := LeafNumber(f.path, row);
      if n.None? then U else Truth(Ordered(o, n.value < CastNumber(v, env), n.value == CastNumber(v, env)))
    else
      var t := FieldText(f, row, env);
      if t.None? then U
      else Truth(Ordered(o, env.textBefore(t.value, ValueText(v, env)), t.value == ValueText(v, env)))
  }

  ghost function MatchMeaning(p: Pattern, f: Field, text: string, row: Row, env: Env): Tri {
    var t := FieldText(f, row, env);
    if t.None? then U
    else
      match p
      case Containing => Truth(Like.Within(text, t.value))
      case Starting => Truth(text <= t.value)
      case Ending => Truth(Like.EndsWith(text, t.value))
  }

  /** "Is set": a JSON null under the key counts as set, an absent key does not. */
  function ExistsMeaning(f: Field, row: Row, env: Env): Tri {
    match f
    case Attribute(path, _) => Truth(Walk(JObj(row.attributes), path).Some?)
    case _ => Truth(FieldText(f, row, env).Some?)
  }

  ghost function Meaning(f: Filter, row: Row, env: Env): Tri
    decreases f
  {
    match f
    case All(fs) => AllMeaning(fs, row, env)
    case Any(fs) => AnyMeaning(fs, row, env)
    case Not(g) => Not3(Meaning(g, row, env))
    case Eq(field, v) => EqMeaning(field, v, row, env)
    case Ne(field, v) => Not3(EqMeaning(field, v, row, env))
    case In(field, vs) => InMeaning(field, vs, row, env)
    case NotIn(field, vs) => Not3(InMeaning(field, vs, row, env))
    case Compare(o, field, v) => CompareMeaning(o, field, v, row, env)
    case Match(p, field, text) => MatchMeaning(p, field, text, row, env)
    case Exists(field) => ExistsMeaning(field, row, env)
    case NotExists(field) => Not3(ExistsMeaning(field, row, env))
  }

  ghost function AllMeaning(fs: seq<Filter>, row: Row, env: Env): Tri
    decreases fs
  {
    if fs == [] then T else And3(AllMeaning(Front(fs), row, env), Meaning(Last(fs), row, env))
  }

  ghost function AnyMeaning(fs: seq<Filter>, row: Row, env: Env): Tri
    decreases fs
  {
    if fs == [] then F else Or3(AnyMeaning(Front(fs), row, env), Meaning(Last(fs), row, env))
  }
}
