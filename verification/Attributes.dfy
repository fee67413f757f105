/** The attribute bounds the edge enforces, as the predicate its schema decides. */
module Attributes {
  import opened Sequences

  const MAX_ATTRIBUTES := 64
  const MAX_ATTRIBUTE_DEPTH := 4
  const MAX_ATTRIBUTE_KEY := 128
  const MAX_ATTRIBUTE_STRING := 4096
  const MAX_ATTRIBUTE_ITEMS := 128

  datatype Number = Finite(r: real) | NonFinite

  datatype Value =
    | Str(s: string)
    | Num(n: Number)
    | Bool(b: bool)
    | Null
    | Arr(items: seq<Value>)
    | Obj(fields: map<string, Value>)

  type Attrs = map<string, Value>

  predicate KeyOk(k: string) { 1 <= |k| <= MAX_ATTRIBUTE_KEY }

  predicate Leaf(v: Value) {
    match v
    case Str(s) => |s| <= MAX_ATTRIBUTE_STRING
    case Num(n) => n.Finite?
    case Bool(_) | Null => true
    case _ => false
  }

  /** `valueAtDepth`: one schema per level, so the bound on nesting is structural. */
  predicate AcceptsValue(v: Value, depth: nat)
    decreases v
  {
    Leaf(v) ||
    (depth > 1 &&
     match v
     case Arr(items) =>
       |items| <= MAX_ATTRIBUTE_ITEMS && forall i | 0 <= i < |items| :: AcceptsValue(items[i], depth - 1)
     case Obj(fields) => forall k | k in fields :: KeyOk(k) && AcceptsValue(fields[k], depth - 1)
     case _ => false)
  }

  /** The whole map: bounded keys, bounded values, at most 64 of them. */
  predicate Accepts(a: Attrs) {
    |a| <= MAX_ATTRIBUTES && forall k | k in a :: KeyOk(k) && AcceptsValue(a[k], MAX_ATTRIBUTE_DEPTH)
  }

  predicate AcceptsOptional(a: Option<Attrs>) { a.None? || Accepts(a.value) }
}
