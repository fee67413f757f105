/**
 * What the Node client does to a caller's attributes before they are queued, and
 * the promise that makes the clamping worth doing: what comes out is what the
 * edge accepts.
 */
module Wire {
  import opened Sequences
  import opened Attributes

  const MAX_BODY := 16384

  const SERVICE_NAME := "service.name"
  const SERVICE_VERSION := "service.version"
  const CHANNEL := "firstrun.channel"
  const OS_TYPE := "os.type"
  const HOST_ARCH := "host.arch"
  const BROWSER_LANGUAGE := "browser.language"
  const TEST := "firstrun.test"
  const RESOURCE_KEYS := [SERVICE_NAME, SERVICE_VERSION, CHANNEL, OS_TYPE, HOST_ARCH, BROWSER_LANGUAGE]

  /** `toISOString` writes at most 27 characters. */
  type IsoText = s: string | |s| <= 27 witness ""

  /** A value as the caller's program holds it. Objects list their own keys in `Object.keys` order. */
  datatype Input =
    | IStr(s: string)
    | INum(n: Number)
    | IBool(b: bool)
    | IBigInt(digits: string)
    | INull
    | IAbsent                      // undefined, a function, a symbol
    | IDate(iso: Option<IsoText>)  // None for an invalid date
    | IArr(items: seq<Input>)
    | IObj(fields: seq<Field>)

  datatype Field = Field(key: string, value: Input)

  function ClampString(s: string): string {
    if |s| > MAX_ATTRIBUTE_STRING then s[..MAX_ATTRIBUTE_STRING] else s
  }

  function Clamp(v: Input, depth: nat): (r: Option<Value>)
    ensures r.Some? ==> AcceptsValue(r.value, depth)
    decreases v
  {
    match v
    case INull => Some(Null)
    case IStr(s) => Some(Str(ClampString(s)))
    case INum(n) => if n.Finite? then Some(Num(n)) else None
    case IBool(b) => Some(Bool(b))
    case IBigInt(digits) => Some(Str(ClampString(digits)))
    case IAbsent => None
    case IDate(iso) => if depth <= 1 || iso.None? then None else Some(Str(iso.value))
    case IArr(items) => if depth <= 1 then None else Some(Arr(ClampItems(items, depth - 1, MAX_ATTRIBUTE_ITEMS)))
    case IObj(fields) => if depth <= 1 then None else Some(Obj(ClampFields(map[], 0, fields, depth - 1, MAX_ATTRIBUTE_ITEMS)))
  }

  /** A hole would shift every later index, so what does not survive becomes null. */
  function ClampItems(items: seq<Input>, depth: nat, room: nat): (r: seq<Value>)
    ensures |r| == Min(|items|, room) && forall i | 0 <= i < |r| :: AcceptsValue(r[i], depth)
    decreases items
  {
    if items == [] || room == 0 then []
    else
      var c := Clamp(items[0], depth);
      [if c.Some? then c.value else Null] + ClampItems(items[1..], depth, room - 1)
  }

  predicate Bounded(a: Attrs, depth: nat) { forall k | k in a :: KeyOk(k) && AcceptsValue(a[k], depth) }

  /** Copies fields onto `out`, which already holds `n`, until `bound` of them landed. */
  function ClampFields(out: Attrs, n: nat, fields: seq<Field>, depth: nat, bound: nat): (r: Attrs)
    ensures |out| <= n <= bound ==> |r| <= bound
    ensures Bounded(out, depth) ==> Bounded(r, depth)
    decreases fields
  {
    if fields == [] || n >= bound then out
    else
      var f := fields[0];
      var c := if KeyOk(f.key) then Clamp(f.value, depth) else None;
      if c.None? then ClampFields(out, n, fields[1..], depth, bound)
      else
        assert out[f.key := c.value].Keys == out.Keys + {f.key};
        assert Bounded(out, depth) ==> Bounded(out[f.key := c.value], depth);
        ClampFields(out[f.key := c.value], n + 1, fields[1..], depth, bound)
  }

  function ClampAttributes(v: Input): Option<Attrs> {
    if !v.IObj? then None
    else
      var out := ClampFields(map[], 0, v.fields, MAX_ATTRIBUTE_DEPTH, MAX_ATTRIBUTES);
      if out == map[] then None else Some(out)
  }

  /** Whatever the caller passed, what is queued is what the edge accepts. */
  lemma ClampedIsAccepted(v: Input)
    ensures AcceptsOptional(ClampAttributes(v))
  {
  }

  // ---------------------------------------------------------------------------
  // What is cut, and how much
  // ---------------------------------------------------------------------------

  /** s is t up to a number of characters. */
  predicate CutTo(s: string, t: string, max: nat) { |s| == Min(|t|, max) && s <= t }

  /** The fields with a key of legal length and a value of which something is left. */
  function Survivors(fields: seq<Field>, depth: nat): seq<Field> {
    if fields == [] then []
    else (if KeyOk(fields[0].key) && Clamp(fields[0].value, depth).Some? then [fields[0]] else []) + Survivors(fields[1..], depth)
  }

  /** Under each key, what is left of its last field. */
  ghost predicate Holds(m: Attrs, fields: seq<Field>, depth: nat) {
    && (forall k :: k in m <==> exists i :: 0 <= i < |fields| && fields[i].key == k)
    && forall i | 0 <= i < |fields| && (forall j | i < j < |fields| :: fields[j].key != fields[i].key) ::
         fields[i].key in m && Clamp(fields[i].value, depth) == Some(m[fields[i].key])
  }

  function First<T>(s: seq<T>, n: nat): seq<T> { s[..Min(n, |s|)] }

  /**
   * What clamping takes away of a plain value and nothing else: a string is cut
   * to 4096 characters; nothing is left of a number that is not finite, of what
   * JSON does not have, or of a date past the depth limit.
   */
  lemma ClampCuts(v: Input, depth: nat)
    ensures v.IStr? ==> exists s :: Clamp(v, depth) == Some(Str(s)) && CutTo(s, v.s, 4096)
    ensures v.IBigInt? ==> exists s :: Clamp(v, depth) == Some(Str(s)) && CutTo(s, v.digits, 4096)
    ensures v.INum? ==> Clamp(v, depth) == if v.n.Finite? then Some(Num(v.n)) else None
    ensures v.IBool? ==> Clamp(v, depth) == Some(Bool(v.b))
    ensures v.INull? ==> Clamp(v, depth) == Some(Null)
    ensures v.IAbsent? ==> Clamp(v, depth) == None
    ensures v.IDate? ==> Clamp(v, depth) == if depth > 1 && v.iso.Some? then Some(Str(v.iso.value)) else None
    ensures v.IArr? || v.IObj? ==> (Clamp(v, depth).Some? <==> depth > 1)
  {
    hide ClampItems, ClampFields;
    match v
    case IStr(s) => assert CutTo(ClampString(s), s, 4096);
    case IBigInt(digits) => assert CutTo(ClampString(digits), digits, 4096);
    case _ =>
  }

  /** An array is cut to its first 128 items, each clamped, with null for one of which nothing is left. */
  lemma ArrayCuts(items: seq<Input>, depth: nat)
    requires depth > 1
    ensures var r := Clamp(IArr(items), depth);
            && r.Some? && r.value.Arr? && |r.value.items| == Min(|items|, 128)
            && forall i | 0 <= i < Min(|items|, 128) ::
                 r.value.items[i] == if Clamp(items[i], depth - 1).Some? then Clamp(items[i], depth - 1).value else Null
  {
    hide ClampItems, ClampFields;
    ItemsCut(items, depth - 1, 128);
  }

  /** An object is cut to the first 128 of its fields that survive. */
  lemma ObjectCuts(fields: seq<Field>, depth: nat)
    requires depth > 1
    ensures var r := Clamp(IObj(fields), depth);
            r.Some? && r.value.Obj? && Holds(r.value.fields, First(Survivors(fields, depth - 1), 128), depth - 1)
  {
    hide ClampItems, ClampFields, Holds, Survivors;
    HoldsNothing(depth - 1);
    FieldsCut(map[], [], 0, fields, depth - 1, 128);
    assert [] + First(Survivors(fields, depth - 1), 128) == First(Survivors(fields, depth - 1), 128);
  }

  lemma HoldsNothing(depth: nat)
    ensures Holds(map[], [], depth)
  {
  }

  lemma {:induction false} ItemsCut(items: seq<Input>, depth: nat, room: nat)
    ensures |ClampItems(items, depth, room)| == Min(|items|, room)
    ensures forall i | 0 <= i < Min(|items|, room) ::
              ClampItems(items, depth, room)[i] == if Clamp(items[i], depth).Some? then Clamp(items[i], depth).value else Null
    decreases items
  {
    if items != [] && room > 0 {
      hide Clamp;
      ItemsCut(items[1..], depth, room - 1);
    }
  }

  /** The same of a whole map of attributes: its first 64 surviving fields, and none at all if none survives. */
  lemma AttributesCut(v: Input)
    ensures ClampAttributes(v).Some? <==> v.IObj? && Survivors(v.fields, 4) != []
    ensures ClampAttributes(v).Some? ==> Holds(ClampAttributes(v).value, First(Survivors(v.fields, 4), 64), 4)
  {
    hide Clamp, Survivors, ClampFields, Holds;
    if v.IObj? {
      var out, landed := ClampFields(map[], 0, v.fields, 4, 64), First(Survivors(v.fields, 4), 64);
      HoldsNothing(4);
      FieldsCut(map[], [], 0, v.fields, 4, 64);
      assert [] + landed == landed;
      HoldsSome(out, landed, 4);
    }
  }

  lemma HoldsSome(m: Attrs, fields: seq<Field>, depth: nat)
    requires Holds(m, fields, depth)
    ensures m == map[] <==> fields == []
  {
    hide Clamp;
    if fields != [] { assert fields[0].key in m; }
  }

  /** What has landed, and what lands of the rest as long as there is room. */
  lemma {:induction false} FieldsCut(out: Attrs, landed: seq<Field>, n: nat, fields: seq<Field>, depth: nat, bound: nat)
    requires n == |landed| <= bound && Holds(out, landed, depth)
    ensures Holds(ClampFields(out, n, fields, depth, bound), landed + First(Survivors(fields, depth), bound - n), depth)
    decreases fields
  {
    hide Holds;
    if fields == [] || n >= bound {
      assert First(Survivors(fields, depth), bound - n) == [];
      assert landed + [] == landed;
    } else {
      var f, rest := fields[0], fields[1..];
      if KeyOk(f.key) && Clamp(f.value, depth).Some? {
        var c := Clamp(f.value, depth).value;
        FieldLands(out, landed, f, c, depth);
        FieldsCut(out[f.key := c], landed + [f], n + 1, rest, depth, bound);
        assert First(Survivors(fields, depth), bound - n) == [f] + First(Survivors(rest, depth), bound - n - 1);
        Assoc(landed, [f], First(Survivors(rest, depth), bound - n - 1));
      } else {
        assert Survivors(fields, depth) == Survivors(rest, depth);
        FieldsCut(out, landed, n, rest, depth, bound);
      }
    }
  }

  lemma FieldLands(out: Attrs, landed: seq<Field>, f: Field, c: Value, depth: nat)
    requires Holds(out, landed, depth) && Clamp(f.value, depth) == Some(c)
    ensures Holds(out[f.key := c], landed + [f], depth)
  {
    hide Clamp;
    var m, all := out[f.key := c], landed + [f];
    forall k
      ensures k in m <==> exists i :: 0 <= i < |all| && all[i].key == k
    {
      if k == f.key { assert all[|landed|].key == k; }
      else if k in out { var i :| 0 <= i < |landed| && landed[i].key == k; assert all[i].key == k; }
    }
    forall i | 0 <= i < |all| && (forall j | i < j < |all| :: all[j].key != all[i].key)
      ensures all[i].key in m && Clamp(all[i].value, depth) == Some(m[all[i].key])
    {
      if i < |landed| {
        assert all[|landed|].key != all[i].key;
        assert forall j | i < j < |landed| :: all[j] == landed[j];
        assert landed[i] == all[i];
      }
    }
  }

  // ---------------------------------------------------------------------------
  // Nothing acceptable is lost
  // ---------------------------------------------------------------------------

  /** A value that is already plain JSON within every bound. */
  predicate Fits(v: Input, depth: nat)
    decreases v
  {
    match v
    case INull | IBool(_) => true
    case IStr(s) => |s| <= MAX_ATTRIBUTE_STRING
    case INum(n) => n.Finite?
    case IArr(items) => depth > 1 && |items| <= MAX_ATTRIBUTE_ITEMS && forall i | 0 <= i < |items| :: Fits(items[i], depth - 1)
    case IObj(fields) =>
      depth > 1 && |fields| <= MAX_ATTRIBUTE_ITEMS && FieldsFit(fields, depth - 1)
    case _ => false
  }

  predicate FieldsFit(fields: seq<Field>, depth: nat)
    decreases fields
  {
    forall i | 0 <= i < |fields| :: KeyOk(fields[i].key) && Fits(fields[i].value, depth)
  }

  /** The JSON value an input is, with nothing cut. */
  function Plain(v: Input): Value
    decreases v
  {
    match v
    case IStr(s) => Str(s)
    case INum(n) => Num(n)
    case IBool(b) => Bool(b)
    case IArr(items) => Arr(PlainItems(items))
    case IObj(fields) => Obj(PlainFields(map[], fields))
    case _ => Null
  }

  function PlainItems(items: seq<Input>): seq<Value>
    decreases items
  {
    if items == [] then [] else [Plain(items[0])] + PlainItems(items[1..])
  }

  function PlainFields(out: Attrs, fields: seq<Field>): Attrs
    decreases fields
  {
    if fields == [] then out else PlainFields(out[fields[0].key := Plain(fields[0].value)], fields[1..])
  }

  lemma {:induction false} ClampKeepsWhatFits(v: Input, depth: nat)
    requires Fits(v, depth)
    ensures Clamp(v, depth) == Some(Plain(v))
    decreases v
  {
    match v
    case IArr(items) =>
      ItemsKeepWhatFits(items, depth - 1, MAX_ATTRIBUTE_ITEMS);
    case IObj(fields) =>
      FieldsKeepWhatFits(map[], 0, fields, depth - 1, MAX_ATTRIBUTE_ITEMS);
    case _ =>
  }

  lemma {:induction false} ItemsKeepWhatFits(items: seq<Input>, depth: nat, room: nat)
    requires |items| <= room && forall i | 0 <= i < |items| :: Fits(items[i], depth)
    ensures ClampItems(items, depth, room) == PlainItems(items)
    decreases items
  {
    if items != [] {
      hide Clamp, Plain, Fits;
      ClampKeepsWhatFits(items[0], depth);
      ItemsKeepWhatFits(items[1..], depth, room - 1);
    }
  }

  lemma {:induction false} FieldsKeepWhatFits(out: Attrs, n: nat, fields: seq<Field>, depth: nat, bound: nat)
    requires FieldsFit(fields, depth) && n + |fields| <= bound
    ensures ClampFields(out, n, fields, depth, bound) == PlainFields(out, fields)
    decreases fields
  {
    if fields != [] {
      assert KeyOk(fields[0].key) && Fits(fields[0].value, depth);
      ClampKeepsWhatFits(fields[0].value, depth);
      FieldsKeepWhatFits(out[fields[0].key := Plain(fields[0].value)], n + 1, fields[1..], depth, bound);
    }
  }

  // ---------------------------------------------------------------------------
  // Merging
  // ---------------------------------------------------------------------------

  /** Lays b's keys, in the order given, over a. A new key past the bound is left out. */
  function MergeInto(out: Attrs, b: Attrs, keys: seq<string>): (r: Attrs)
    requires forall k | k in keys :: k in b
    ensures |out| <= MAX_ATTRIBUTES ==> |r| <= MAX_ATTRIBUTES
    ensures forall k | k in out :: k in r
    ensures forall k | k in r :: k in out || k in keys
    ensures forall k | k in out && k !in keys :: r[k] == out[k]
    ensures forall k | k in r && k in keys :: r[k] == b[k]
    decreases keys
  {
    if keys == [] then out
    else if keys[0] !in out && |out| >= MAX_ATTRIBUTES then MergeInto(out, b, keys[1..])
    else
      assert out[keys[0] := b[keys[0]]].Keys == out.Keys + {keys[0]};
      MergeInto(out[keys[0] := b[keys[0]]], b, keys[1..])
  }

  /** An enumeration of a map's keys, as `Object.keys` gives one. */
  ghost predicate KeyOrder(b: Attrs, keys: seq<string>) {
    (forall k :: k in keys <==> k in b) && forall i, j | 0 <= i < j < |keys| :: keys[i] != keys[j]
  }

  function Merge(a: Option<Attrs>, b: Option<Attrs>, keys: seq<string>): Option<Attrs>
    requires b.Some? ==> KeyOrder(b.value, keys)
  {
    if a.None? then b else if b.None? then a else Some(MergeInto(a.value, b.value, keys))
  }

  lemma MergedIsAccepted(a: Option<Attrs>, b: Option<Attrs>, keys: seq<string>)
    requires b.Some? ==> KeyOrder(b.value, keys)
    requires AcceptsOptional(a) && AcceptsOptional(b)
    ensures AcceptsOptional(Merge(a, b, keys))
  {
    if a.Some? && b.Some? {
      var r := MergeInto(a.value, b.value, keys);
      forall k | k in r
        ensures KeyOk(k) && AcceptsValue(r[k], MAX_ATTRIBUTE_DEPTH)
      {
        if k in keys { assert r[k] == b.value[k]; } else { assert k in a.value; }
      }
    }
  }

  /** Where both fit together the bound is invisible: later keys win and every key lands. */
  lemma {:induction false} MergeWithinBound(out: Attrs, b: Attrs, keys: seq<string>)
    requires forall k | k in keys :: k in b
    requires |out.Keys + b.Keys| <= MAX_ATTRIBUTES
    ensures forall k | k in keys :: k in MergeInto(out, b, keys)
    decreases keys
  {
    if keys != [] {
      var next := out[keys[0] := b[keys[0]]];
      NextFits(out, b, keys[0]);
      MergeWithinBound(next, b, keys[1..]);
    }
  }

  lemma NextFits(out: Attrs, b: Attrs, k: string)
    requires k in b && |out.Keys + b.Keys| <= MAX_ATTRIBUTES
    ensures |out[k := b[k]].Keys + b.Keys| <= MAX_ATTRIBUTES
    ensures k in out || |out| < MAX_ATTRIBUTES
  {
    assert out[k := b[k]].Keys + b.Keys == out.Keys + b.Keys;
    SubsetSize(out.Keys + {k}, out.Keys + b.Keys);
    assert k !in out ==> |out.Keys + {k}| == |out.Keys| + 1;
  }

  lemma {:induction false} SubsetSize<T>(a: set<T>, b: set<T>)
    requires a <= b
    ensures |a| <= |b|
    decreases |a|
  {
    if a != {} {
      var x :| x in a;
      SubsetSize(a - {x}, b - {x});
    }
  }

  // ---------------------------------------------------------------------------
  // The entry's final attributes
  // ---------------------------------------------------------------------------

  function ClampBody(body: Option<string>): Option<string> {
    if body.None? || body.value == "" then None
    else Some(body.value[..Min(|body.value|, MAX_BODY)])
  }

  /** `body`, `trace_id` and `span_id`, as the attributes they travel as. */
  function SpecAttributes(body: Option<string>, traceId: Option<string>, spanId: Option<string>): Attrs {
    var b := ClampBody(body);
    (if b.Some? then map["body" := Str(b.value)] else map[]) +
    (if traceId.Some? then map["trace_id" := Str(traceId.value)] else map[]) +
    (if spanId.Some? then map["span_id" := Str(spanId.value)] else map[])
  }

  /**
   * The edge takes the entry exactly when every spec attribute that landed is no
   * longer than 4096. The client's own cap on `body` is four times that, so a
   * body between the two is queued, sent, and thrown away with its entry.
   */
  lemma FinalAcceptedIff(layers: Attrs, spec: Attrs, keys: seq<string>)
    requires Accepts(layers) && KeyOrder(spec, keys)
    requires forall k | k in spec :: KeyOk(k) && spec[k].Str?
    ensures var final := MergeInto(layers, spec, keys);
            Accepts(final) <==> forall k | k in spec && k in final :: |spec[k].s| <= MAX_ATTRIBUTE_STRING
  {
    var final := MergeInto(layers, spec, keys);
    forall k | k in final
      ensures KeyOk(k)
      ensures k in spec ==> (AcceptsValue(final[k], MAX_ATTRIBUTE_DEPTH) <==> |spec[k].s| <= MAX_ATTRIBUTE_STRING)
      ensures k !in spec ==> AcceptsValue(final[k], MAX_ATTRIBUTE_DEPTH)
    {
    }
  }

  predicate Within(t: Option<string>) { t.Some? ==> |t.value| <= MAX_ATTRIBUTE_STRING }

  /** With room for all three, the condition is on the three texts the caller gave. */
  lemma EntryAcceptedIff(layers: Attrs, body: Option<string>, traceId: Option<string>, spanId: Option<string>, keys: seq<string>)
    requires Accepts(layers)
    requires var spec := SpecAttributes(body, traceId, spanId);
             KeyOrder(spec, keys) && |layers.Keys + spec.Keys| <= MAX_ATTRIBUTES
    ensures Accepts(MergeInto(layers, SpecAttributes(body, traceId, spanId), keys)) <==>
            Within(body) && Within(traceId) && Within(spanId)
  {
    var spec := SpecAttributes(body, traceId, spanId);
    SpecTexts(body, traceId, spanId);
    MergeWithinBound(layers, spec, keys);
    FinalAcceptedIff(layers, spec, keys);
    var final := MergeInto(layers, spec, keys);
    assert forall k | k in spec :: k in final;
  }

  /** The three texts under their own names, an empty body left out, and no other key. */
  ghost predicate SpecHolds(spec: Attrs, body: Option<string>, traceId: Option<string>, spanId: Option<string>) {
    && (forall k :: k in spec <==>
          (k == "body" && body.Some? && body.value != "") || (k == "trace_id" && traceId.Some?) || (k == "span_id" && spanId.Some?))
    && ("body" in spec ==> spec["body"] == Str(body.value[..Min(|body.value|, MAX_BODY)]))
    && ("trace_id" in spec ==> spec["trace_id"] == Str(traceId.value))
    && ("span_id" in spec ==> spec["span_id"] == Str(spanId.value))
  }

  /** With room for all three, the entry goes out with each under its name and, under every other key, what its layers held. */
  lemma EntryHolds(layers: Attrs, body: Option<string>, traceId: Option<string>, spanId: Option<string>, keys: seq<string>)
    requires Accepts(layers)
    requires var spec := SpecAttributes(body, traceId, spanId);
             KeyOrder(spec, keys) && |layers.Keys + spec.Keys| <= MAX_ATTRIBUTES
    ensures var spec := SpecAttributes(body, traceId, spanId);
            SpecHolds(spec, body, traceId, spanId) && MergeInto(layers, spec, keys) == layers + spec
  {
    hide SpecAttributes, SpecHolds, Accepts;
    SpecTexts(body, traceId, spanId);
    MergeIsUnion(layers, SpecAttributes(body, traceId, spanId), keys);
  }

  lemma MergeIsUnion(out: Attrs, b: Attrs, keys: seq<string>)
    requires KeyOrder(b, keys) && |out.Keys + b.Keys| <= MAX_ATTRIBUTES
    ensures MergeInto(out, b, keys) == out + b
  {
    MergeWithinBound(out, b, keys);
    SameMap(MergeInto(out, b, keys), out + b, out, b, keys);
  }

  lemma SameMap(r: Attrs, u: Attrs, out: Attrs, b: Attrs, keys: seq<string>)
    requires u == out + b && (forall k :: k in keys <==> k in b) && (forall k | k in keys :: k in r)
    requires (forall k | k in out :: k in r) && (forall k | k in r :: k in out || k in keys)
    requires (forall k | k in out && k !in keys :: r[k] == out[k]) && (forall k | k in r && k in keys :: r[k] == b[k])
    ensures r == u
  {
    assert forall k | k in u :: k in b || k in out;
    assert forall k :: k in r <==> k in u;
  }

  lemma SpecTexts(body: Option<string>, traceId: Option<string>, spanId: Option<string>)
    ensures SpecHolds(SpecAttributes(body, traceId, spanId), body, traceId, spanId)
    ensures var spec := SpecAttributes(body, traceId, spanId);
            && (forall k | k in spec :: KeyOk(k) && spec[k].Str?)
            && ((forall k | k in spec :: |spec[k].s| <= MAX_ATTRIBUTE_STRING) <==>
                Within(body) && Within(traceId) && Within(spanId))
  {
    var spec := SpecAttributes(body, traceId, spanId);
    assert "body" != "trace_id" && "body" != "span_id" && "trace_id" != "span_id" by {
      assert |"body"| == 4 && |"trace_id"| == 8 && |"span_id"| == 7;
    }
    assert forall k | k in spec :: k == "body" || k == "trace_id" || k == "span_id";
    assert "body" in spec <==> ClampBody(body).Some?;
    assert "body" in spec ==> spec["body"] == Str(ClampBody(body).value);
    assert "trace_id" in spec <==> traceId.Some?;
    assert "trace_id" in spec ==> spec["trace_id"] == Str(traceId.value);
    assert "span_id" in spec <==> spanId.Some?;
    assert "span_id" in spec ==> spec["span_id"] == Str(spanId.value);
  }

  // ---------------------------------------------------------------------------
  // The resource
  // ---------------------------------------------------------------------------

  /** The values that are named laid over the base, in the order of the keys and with nothing cut. */
  function Overlay(out: Attrs, values: map<string, string>, keys: seq<string>): (r: Attrs)
    ensures r.Keys == out.Keys + set k | k in keys && k in values
    ensures forall k | k in r :: r[k] == if k in keys && k in values then Str(values[k]) else out[k]
    decreases |keys|
  {
    if keys == [] then out
    else
      assert forall k :: k in keys <==> k == keys[0] || k in keys[1..];
      Overlay(if keys[0] in values then out[keys[0] := Str(values[keys[0]])] else out, values, keys[1..])
  }

  function Marked(testMode: bool): Attrs { if testMode then map[TEST := Bool(true)] else map[] }

  /** `resourceFor`: the clamped base, what is named for the process or the entry, the test mark. */
  function ResourceFor(base: Option<Attrs>, values: map<string, string>, testMode: bool): Option<Attrs> {
    var out := Laid(if base.Some? then base.value else map[], values, testMode);
    if base.None? && out == map[] then None else Some(out)
  }

  /**
   * The resource an entry goes out with: the test mark where the client is in test
   * mode, what is named, and under every other key what its base says; none at
   * all where there is nothing to say and no base to say it on.
   */
  lemma ResourceHolds(base: Option<Attrs>, values: map<string, string>, testMode: bool)
    ensures var r := ResourceFor(base, values, testMode);
            var named := map k | k in values && k in RESOURCE_KEYS :: Str(values[k]);
            var under := if base.Some? then base.value else map[];
            && (r.None? <==> base.None? && named == map[] && !testMode)
            && (r.Some? ==> r.value == under + named + if testMode then map["firstrun.test" := Bool(true)] else map[])
  {
    hide Overlay;
    var named := map k | k in values && k in RESOURCE_KEYS :: Str(values[k]);
    var under := if base.Some? then base.value else map[];
    OverlayIs(under, values, RESOURCE_KEYS, named);
    NothingMore(under, named, testMode);
  }

  lemma NothingMore(under: Attrs, named: Attrs, testMode: bool)
    ensures under == map[] ==> (under + named + Marked(testMode) == map[] <==> named == map[] && !testMode)
  {
    var all := under + named + Marked(testMode);
    if testMode { assert TEST in all; }
    if k :| k in named { assert k in all; }
  }

  lemma OverlayIs(out: Attrs, values: map<string, string>, keys: seq<string>, named: Attrs)
    requires named == map k | k in values && k in keys :: Str(values[k])
    ensures Overlay(out, values, keys) == out + named
  {
    var r, u := Overlay(out, values, keys), out + named;
    hide Overlay;
    SameKeys(r, u, out, values, keys, named);
  }

  lemma SameKeys(r: Attrs, u: Attrs, out: Attrs, values: map<string, string>, keys: seq<string>, named: Attrs)
    requires named == (map k | k in values && k in keys :: Str(values[k])) && u == out + named
    requires r.Keys == out.Keys + set k | k in keys && k in values
    requires forall k | k in r :: r[k] == if k in keys && k in values then Str(values[k]) else out[k]
    ensures r == u
  {
    assert r.Keys == u.Keys;
  }

  lemma NamedKeys()
    ensures forall k | k in RESOURCE_KEYS + [TEST] :: KeyOk(k)
    ensures TEST !in RESOURCE_KEYS
  {
    assert TEST[0] == 'f' && SERVICE_NAME[0] == 's' && SERVICE_VERSION[0] == 's' && OS_TYPE[0] == 'o' && HOST_ARCH[0] == 'h';
    assert |TEST| == 13 && |CHANNEL| == 16 && BROWSER_LANGUAGE[0] == 'b';
  }

  function Laid(under: Attrs, values: map<string, string>, testMode: bool): Attrs {
    Overlay(under, values, RESOURCE_KEYS) + Marked(testMode)
  }

  lemma LaidKeys(under: Attrs, values: map<string, string>, testMode: bool)
    requires forall k | k in values :: k in RESOURCE_KEYS
    ensures Laid(under, values, testMode).Keys == under.Keys + values.Keys + Marked(testMode).Keys
  {
    hide Overlay;
    assert (set k | k in RESOURCE_KEYS && k in values) == values.Keys;
  }

  lemma LaidValue(under: Attrs, values: map<string, string>, testMode: bool, k: string)
    requires Accepts(under) && (forall j | j in values :: j in RESOURCE_KEYS) && k in Laid(under, values, testMode)
    ensures KeyOk(k)
    ensures AcceptsValue(Laid(under, values, testMode)[k], MAX_ATTRIBUTE_DEPTH) <==>
            (k in values ==> |values[k]| <= MAX_ATTRIBUTE_STRING)
  {
    hide Overlay;
    NamedKeys();
    LaidKeys(under, values, testMode);
    assert testMode ==> TEST in RESOURCE_KEYS + [TEST];
    assert k in values ==> k in RESOURCE_KEYS + [TEST];
    var out := Laid(under, values, testMode);
    if k in Marked(testMode) { assert out[k] == Bool(true); }
    else if k in values { assert out[k] == Str(values[k]); }
    else { assert out[k] == under[k]; }
  }

  predicate AllShort(values: map<string, string>) { forall k | k in values :: |values[k]| <= MAX_ATTRIBUTE_STRING }

  lemma LaidAcceptedIff(under: Attrs, values: map<string, string>, testMode: bool)
    requires Accepts(under) && forall k | k in values :: k in RESOURCE_KEYS
    ensures Accepts(Laid(under, values, testMode)) <==>
            |under.Keys + values.Keys + Marked(testMode).Keys| <= MAX_ATTRIBUTES && AllShort(values)
  {
    hide KeyOk, AcceptsValue, Laid, Marked;
    var out := Laid(under, values, testMode);
    LaidKeys(under, values, testMode);
    assert |out| == |out.Keys|;
    if AllShort(values) {
      forall k | k in out
        ensures KeyOk(k) && AcceptsValue(out[k], MAX_ATTRIBUTE_DEPTH)
      {
        LaidValue(under, values, testMode, k);
      }
    } else {
      var k :| k in values && |values[k]| > MAX_ATTRIBUTE_STRING;
      assert k in out.Keys;
      LaidValue(under, values, testMode, k);
    }
  }

  /**
   * The base is clamped and what is laid over it is not: the edge takes the
   * resource exactly when the keys still fit and every named value is short
   * enough. Otherwise it takes the batch without any of it.
   */
  lemma ResourceAcceptedIff(base: Option<Attrs>, values: map<string, string>, testMode: bool)
    requires AcceptsOptional(base) && forall k | k in values :: k in RESOURCE_KEYS
    ensures AcceptsOptional(ResourceFor(base, values, testMode)) <==>
            && |(if base.Some? then base.value.Keys else {}) + values.Keys + Marked(testMode).Keys| <= MAX_ATTRIBUTES
            && AllShort(values)
  {
    hide Laid, Marked, AllShort, KeyOk, AcceptsValue;
    var under := if base.Some? then base.value else map[];
    LaidAcceptedIff(under, values, testMode);
    LaidKeys(under, values, testMode);
    assert Accepts(map[]);
  }

  // ---------------------------------------------------------------------------
  // The loops
  // ---------------------------------------------------------------------------

  /** `clampValue`, with its two counted loops. */
  method ClampValueLoop(v: Input, depth: nat) returns (r: Option<Value>)
    ensures r == Clamp(v, depth)
    decreases v
  {
    hide ClampItems, ClampFields, AcceptsValue, KeyOk;
    match v
    case INull => return Some(Null);
    case IStr(s) => return Some(Str(ClampString(s)));
    case INum(n) => return if n.Finite? then Some(Num(n)) else None;
    case IBool(b) => return Some(Bool(b));
    case IBigInt(digits) => return Some(Str(ClampString(digits)));
    case IAbsent => return None;
    case IDate(iso) => return if depth <= 1 || iso.None? then None else Some(Str(iso.value));
    case IArr(items) =>
      if depth <= 1 { return None; }
      var out := ClampItemsLoop(items, depth - 1);
      return Some(Arr(out));
    case IObj(fields) =>
      if depth <= 1 { return None; }
      var out := ClampFieldsLoop(fields, depth - 1, MAX_ATTRIBUTE_ITEMS);
      return Some(Obj(out));
  }

  lemma ClampItemsStep(items: seq<Input>, i: nat, depth: nat, room: nat)
    requires i < |items| && 0 < room
    ensures var c := Clamp(items[i], depth);
            ClampItems(items[i..], depth, room) ==
            [if c.Some? then c.value else Null] + ClampItems(items[i + 1..], depth, room - 1)
  {
    hide Clamp;
    assert items[i..][0] == items[i] && items[i..][1..] == items[i + 1..];
  }

  method ClampItemsLoop(items: seq<Input>, depth: nat) returns (out: seq<Value>)
    ensures out == ClampItems(items, depth, MAX_ATTRIBUTE_ITEMS)
    decreases items
  {
    hide Clamp, AcceptsValue, ClampItems;
    out := [];
    var i := 0;
    assert items[0..] == items;
    while i < |items| && |out| < MAX_ATTRIBUTE_ITEMS
      invariant i == |out| <= |items| && i <= MAX_ATTRIBUTE_ITEMS
      invariant out + ClampItems(items[i..], depth, MAX_ATTRIBUTE_ITEMS - i) == ClampItems(items, depth, MAX_ATTRIBUTE_ITEMS)
    {
      ClampItemsStep(items, i, depth, MAX_ATTRIBUTE_ITEMS - i);
      var clamped := ClampValueLoop(items[i], depth);
      var kept := if clamped.None? then Null else clamped.value;
      var rest := ClampItems(items[i + 1..], depth, MAX_ATTRIBUTE_ITEMS - i - 1);
      Assoc(out, [kept], rest);
      out := out + [kept];
      i := i + 1;
    }
    ItemsDone(items, i, depth, MAX_ATTRIBUTE_ITEMS - i);
  }

  lemma ItemsDone(items: seq<Input>, i: nat, depth: nat, room: nat)
    requires i <= |items| && (i == |items| || room == 0)
    ensures ClampItems(items[i..], depth, room) == []
  {
  }

  method ClampFieldsLoop(fields: seq<Field>, depth: nat, bound: nat) returns (out: Attrs)
    ensures out == ClampFields(map[], 0, fields, depth, bound)
    decreases fields
  {
    hide Clamp, ClampFields, KeyOk, AcceptsValue;
    out := map[];
    var n, i := 0, 0;
    assert fields[0..] == fields;
    while i < |fields| && n < bound
      invariant 0 <= i <= |fields|
      invariant ClampFields(out, n, fields[i..], depth, bound) == ClampFields(map[], 0, fields, depth, bound)
    {
      var f := fields[i];
      ClampFieldsStep(out, n, fields, i, depth, bound);
      if KeyOk(f.key) {
        var clamped := ClampValueLoop(f.value, depth);
        if clamped.Some? {
          out := out[f.key := clamped.value];
          n := n + 1;
        }
      }
      i := i + 1;
    }
    FieldsDone(out, n, fields, i, depth, bound);
  }

  lemma ClampFieldsStep(out: Attrs, n: nat, fields: seq<Field>, i: nat, depth: nat, bound: nat)
    requires i < |fields| && n < bound
    ensures var f := fields[i];
            var c := if KeyOk(f.key) then Clamp(f.value, depth) else None;
            ClampFields(out, n, fields[i..], depth, bound) ==
            if c.None? then ClampFields(out, n, fields[i + 1..], depth, bound)
            else ClampFields(out[f.key := c.value], n + 1, fields[i + 1..], depth, bound)
  {
    hide Clamp, KeyOk;
    assert fields[i..][0] == fields[i] && fields[i..][1..] == fields[i + 1..];
  }

  lemma FieldsDone(out: Attrs, n: nat, fields: seq<Field>, i: nat, depth: nat, bound: nat)
    requires i <= |fields| && (i == |fields| || n >= bound)
    ensures ClampFields(out, n, fields[i..], depth, bound) == out
  {
  }

  lemma OverlayStep(out: Attrs, values: map<string, string>, keys: seq<string>, i: nat)
    requires i < |keys|
    ensures Overlay(out, values, keys[i..]) ==
            Overlay(if keys[i] in values then out[keys[i] := Str(values[keys[i]])] else out, values, keys[i + 1..])
  {
    assert keys[i..][0] == keys[i] && keys[i..][1..] == keys[i + 1..];
  }

  /** `(out ??= {})[key] = value` for each key that has one. */
  method OverlayLoop(base: Option<Attrs>, values: map<string, string>, keys: seq<string>) returns (out: Option<Attrs>)
    ensures var r := Overlay(if base.Some? then base.value else map[], values, keys);
            out == if base.None? && r == map[] then None else Some(r)
  {
    hide Overlay;
    out := base;
    assert keys[0..] == keys;
    for i := 0 to |keys|
      invariant if out.None? then base.None? else base.Some? || out.value != map[]
      invariant Overlay(if out.Some? then out.value else map[], values, keys[i..]) ==
                Overlay(if base.Some? then base.value else map[], values, keys)
    {
      var before := if out.Some? then out.value else map[];
      OverlayStep(before, values, keys, i);
      if keys[i] in values {
        out := Some(before[keys[i] := Str(values[keys[i]])]);
        assert keys[i] in out.value;
      }
    }
    assert keys[|keys|..] == [];
    OverlayNothing(if out.Some? then out.value else map[], values);
  }

  lemma OverlayNothing(out: Attrs, values: map<string, string>)
    ensures Overlay(out, values, []) == out
  {
  }

  method ResourceLoop(base: Option<Attrs>, values: map<string, string>, testMode: bool) returns (out: Option<Attrs>)
    ensures out == ResourceFor(base, values, testMode)
  {
    hide Overlay;
    out := OverlayLoop(base, values, RESOURCE_KEYS);
    var before := if out.Some? then out.value else map[];
    assert before[TEST := Bool(true)] == before + map[TEST := Bool(true)] && before + map[] == before;
    if testMode {
      out := Some(before[TEST := Bool(true)]);
      assert TEST in out.value;
    }
  }

  method MergeLoop(a: Attrs, b: Attrs, keys: seq<string>) returns (out: Attrs)
    requires KeyOrder(b, keys)
    ensures out == MergeInto(a, b, keys)
  {
    out := a;
    for i := 0 to |keys|
      invariant MergeInto(out, b, keys[i..]) == MergeInto(a, b, keys)
    {
      assert keys[i..][1..] == keys[i + 1..];
      var known := keys[i] in out;
      if known || |out| < MAX_ATTRIBUTES {
        out := out[keys[i] := b[keys[i]]];
      }
    }
  }
}
