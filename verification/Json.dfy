/** JSON documents, the path walk of `#>`, and jsonb containment. */
module Json {
  import opened Sequences

  datatype Json =
    | JNull
    | JBool(b: bool)
    | JNum(n: real)
    | JStr(s: string)
    | JArr(items: seq<Json>)
    | JObj(fields: map<string, Json>)

  predicate Scalar(j: Json) { !j.JArr? && !j.JObj? }

  /** `@>`: objects by key, arrays by membership, scalars by equality. */
  predicate Contains(l: Json, r: Json)
    decreases r
  {
    match r
    case JObj(f) => l.JObj? && forall k | k in f :: k in l.fields && Contains(l.fields[k], f[k])
    case JArr(a) => l.JArr? && forall i | 0 <= i < |a| :: exists j | 0 <= j < |l.items| :: Contains(l.items[j], a[i])
    case _ => l == r
  }

  predicate Digits(s: string) { s != "" && forall i | 0 <= i < |s| :: '0' <= s[i] <= '9' }

  function Index(s: string): nat
    requires Digits(s)
  {
    (if |s| == 1 then 0 else 10 * Index(Front(s))) + (Last(s) as int - '0' as int)
  }

  /** `#>`: objects by key, arrays by digit string. */
  function Walk(j: Json, path: seq<string>): Option<Json>
    decreases path
  {
    if path == [] then Some(j)
    else
      match j
      case JObj(fields) => if path[0] in fields then Walk(fields[path[0]], path[1..]) else None
      case JArr(items) =>
        if Digits(path[0]) && Index(path[0]) < |items| then Walk(items[Index(path[0])], path[1..]) else None
      case _ => None
  }

  /** Containment walks object keys, so no later segment may be an array index. */
  predicate Containable(path: seq<string>) { forall i | 1 <= i < |path| :: !Digits(path[i]) }

  function Nest(path: seq<string>, value: Json): Json {
    if path == [] then value else JObj(map[path[0] := Nest(path[1..], value)])
  }

  /** `nest`, built from the leaf outwards. */
  method NestLoop(path: seq<string>, value: Json) returns (acc: Json)
    ensures acc == Nest(path, value)
  {
    acc := value;
    var i := |path|;
    while i > 0
      invariant 0 <= i <= |path|
      invariant acc == Nest(path[i..], value)
    {
      i := i - 1;
      assert path[i..][1..] == path[i + 1..];
      acc := JObj(map[path[i] := acc]);
    }
    assert path[0..] == path;
  }

  lemma {:induction false} KeysOnly(j: Json, path: seq<string>, value: Json)
    requires Scalar(value) && forall i | 0 <= i < |path| :: !Digits(path[i])
    ensures Contains(j, Nest(path, value)) <==> Walk(j, path) == Some(value)
    decreases path
  {
    if path != [] && j.JObj? && path[0] in j.fields {
      KeysOnly(j.fields[path[0]], path[1..], value);
    }
  }

  /** The indexable form means the plain walk, for every containable path, scalar and document. */
  lemma ContainmentIsWalk(fields: map<string, Json>, path: seq<string>, value: Json)
    requires path != [] && Containable(path) && Scalar(value)
    ensures Contains(JObj(fields), Nest(path, value)) <==> Walk(JObj(fields), path) == Some(value)
  {
    if path[0] in fields {
      KeysOnly(fields[path[0]], path[1..], value);
    }
  }

  /** Where it is not containable the two differ: an array answers the walk and never the containment. */
  lemma ArrayIndexNotContained(key: string, value: Json)
    requires Scalar(value)
    ensures var doc := map[key := JArr([value])];
            && Walk(JObj(doc), [key, "0"]) == Some(value)
            && !Contains(JObj(doc), Nest([key, "0"], value))
            && !Containable([key, "0"])
  {
    assert Digits("0") && Index("0") == 0;
    assert [key, "0"][1..] == ["0"] && ["0"][1..] == [];
    assert Nest(["0"], value).JObj?;
  }
}
