/**
 * Canonical form and its JSON: properties sorted by key, undefined ones left
 * out. Two values have one key exactly
 * when they are the same up to key order and undefined parts.
 */
module QueryKeys {
  import opened Sequences

  /** A value as the program holds it. Properties are in the order they were set. */
  datatype Js =
    | Null | Bool(b: bool) | Num(n: real) | Str(s: string)
    | Arr(items: seq<Js>)
    | Obj(props: seq<Prop>)

  /** None is a property that is there and undefined. */
  datatype Prop = Prop(key: string, value: Option<Js>)

  // ---------------------------------------------------------------------------
  // The order keys are sorted in
  // ---------------------------------------------------------------------------

  predicate Before(a: string, b: string) {
    b != [] && (a == [] || a[0] < b[0] || (a[0] == b[0] && Before(a[1..], b[1..])))
  }

  lemma {:induction false} BeforeTotal(a: string, b: string)
    ensures a != b ==> Before(a, b) || Before(b, a)
    ensures !(Before(a, b) && Before(b, a)) && !Before(a, a)
    decreases |a|
  {
    if a != [] && b != [] {
      BeforeTotal(a[1..], b[1..]);
      assert a[0] == b[0] && a[1..] == b[1..] ==> a == b by { assert a == [a[0]] + a[1..] && b == [b[0]] + b[1..]; }
    }
    if a != [] { BeforeTotal(a[1..], a[1..]); }
  }

  lemma {:induction false} BeforeTrans(a: string, b: string, c: string)
    requires Before(a, b) && Before(b, c)
    ensures Before(a, c)
    decreases |a|
  {
    if a != [] && a[0] == b[0] == c[0] { BeforeTrans(a[1..], b[1..], c[1..]); }
  }

  // ---------------------------------------------------------------------------
  // Canonical form
  // ---------------------------------------------------------------------------

  function Canonical(v: Js): Js
    decreases v
  {
    match v
    case Arr(items) => Arr(CanonicalItems(items))
    case Obj(props) => Obj(CanonicalProps(props))
    case _ => v
  }

  function CanonicalItems(items: seq<Js>): seq<Js>
    decreases items
  {
    if items == [] then [] else [Canonical(items[0])] + CanonicalItems(items[1..])
  }

  /** Undefined ones dropped, the rest sorted by key. */
  function CanonicalProps(props: seq<Prop>): seq<Prop>
    decreases props
  {
    if props == [] then []
    else
      var rest := CanonicalProps(props[1..]);
      match props[0].value
      case None => rest
      case Some(v) => Inserted(Prop(props[0].key, Some(Canonical(v))), rest)
  }

  function Inserted(p: Prop, sorted: seq<Prop>): seq<Prop> {
    if sorted == [] || Before(p.key, sorted[0].key) then [p] + sorted
    else [sorted[0]] + Inserted(p, sorted[1..])
  }

  /** What reading a key gives; undefined and absent are alike. */
  function Get(props: seq<Prop>, k: string): Option<Js> {
    if props == [] then None else if props[0].key == k then props[0].value else Get(props[1..], k)
  }

  /** No object has a key twice. */
  ghost predicate Proper(v: Js)
    decreases v
  {
    match v
    case Arr(items) => forall i | 0 <= i < |items| :: Proper(items[i])
    case Obj(props) => ProperProps(props)
    case _ => true
  }

  ghost predicate ProperProps(props: seq<Prop>)
    decreases props
  {
    props == [] ||
    (props[0].key !in Keys(props[1..]) && (props[0].value.Some? ==> Proper(props[0].value.value)) && ProperProps(props[1..]))
  }

  function Keys(props: seq<Prop>): set<string> { set p | p in props :: p.key }

  /** The same value: objects by what each key reads as, everything else as it stands. */
  ghost predicate Same(a: Js, b: Js)
    decreases a
  {
    match a
    case Arr(x) => b.Arr? && |x| == |b.items| && forall i | 0 <= i < |x| :: Same(x[i], b.items[i])
    case Obj(p) => b.Obj? && SameProps(p, b.props) && Covers(p, b.props)
    case _ => a == b
  }

  /** Everything `q` defines, `p` defines. */
  ghost predicate Covers(p: seq<Prop>, q: seq<Prop>) { forall k :: Get(q, k).Some? ==> Get(p, k).Some? }

  /** Every defined property of `p` is defined, and the same, in `q`. */
  ghost predicate SameProps(p: seq<Prop>, q: seq<Prop>)
    decreases p
  {
    forall i | 0 <= i < |p| && p[i].value.Some? ::
      Get(q, p[i].key).Some? && Same(p[i].value.value, Get(q, p[i].key).value)
  }

  // ---------------------------------------------------------------------------
  // Sorted properties are determined by what they read as
  // ---------------------------------------------------------------------------

  ghost predicate Sorted(props: seq<Prop>) {
    && (forall i, j | 0 <= i < j < |props| :: Before(props[i].key, props[j].key))
    && forall i | 0 <= i < |props| :: props[i].value.Some?
  }

  lemma {:induction false} GetMember(props: seq<Prop>, k: string)
    ensures Get(props, k).Some? ==> k in Keys(props)
    ensures k !in Keys(props) ==> Get(props, k) == None
  {
    if props != [] {
      GetMember(props[1..], k);
      assert props[0] in props && forall p | p in props[1..] :: p in props;
    }
  }

  lemma {:induction false} InsertedGets(p: Prop, sorted: seq<Prop>, k: string)
    requires p.key !in Keys(sorted)
    ensures Get(Inserted(p, sorted), k) == if k == p.key then p.value else Get(sorted, k)
    ensures Keys(Inserted(p, sorted)) == Keys(sorted) + {p.key}
    decreases |sorted|
  {
    if sorted == [] || Before(p.key, sorted[0].key) {
      assert Keys([p] + sorted) == {p.key} + Keys(sorted);
    } else {
      KeysCons(sorted);
      InsertedGets(p, sorted[1..], k);
      KeysCons([sorted[0]] + Inserted(p, sorted[1..]));
    }
  }

  lemma KeysCons(props: seq<Prop>)
    requires props != []
    ensures Keys(props) == {props[0].key} + Keys(props[1..])
  {
    assert props == [props[0]] + props[1..];
  }

  lemma {:induction false} InsertedSorted(p: Prop, sorted: seq<Prop>)
    requires Sorted(sorted) && p.key !in Keys(sorted) && p.value.Some?
    ensures Sorted(Inserted(p, sorted))
    decreases |sorted|
  {
    if sorted == [] {
    } else if Before(p.key, sorted[0].key) {
      forall j | 0 < j < |sorted|
        ensures Before(p.key, sorted[j].key)
      {
        BeforeTrans(p.key, sorted[0].key, sorted[j].key);
      }
    } else {
      assert sorted[0] in sorted;
      BeforeTotal(p.key, sorted[0].key);
      KeysCons(sorted);
      InsertedSorted(p, sorted[1..]);
      HeadFirst(sorted[0], p, sorted[1..]);
    }
  }

  /** A head before everything inserted stays a head. */
  lemma {:induction false} HeadFirst(h: Prop, p: Prop, rest: seq<Prop>)
    requires Before(h.key, p.key) && forall i | 0 <= i < |rest| :: Before(h.key, rest[i].key)
    ensures forall i | 0 <= i < |Inserted(p, rest)| :: Before(h.key, Inserted(p, rest)[i].key)
    decreases |rest|
  {
    if rest != [] && !Before(p.key, rest[0].key) {
      HeadFirst(h, p, rest[1..]);
    }
  }

  lemma {:induction false} CanonicalGets(props: seq<Prop>)
    requires ProperProps(props)
    ensures Sorted(CanonicalProps(props)) && Keys(CanonicalProps(props)) <= Keys(props)
    ensures forall k :: Get(CanonicalProps(props), k) ==
                        if Get(props, k).Some? then Some(Canonical(Get(props, k).value)) else None
    decreases |props|
  {
    if props != [] {
      hide Canonical;
      CanonicalGets(props[1..]);
      KeysCons(props);
      var rest := CanonicalProps(props[1..]);
      if props[0].value.Some? {
        var p := Prop(props[0].key, Some(Canonical(props[0].value.value)));
        InsertedSorted(p, rest);
        InsertedGets(p, rest, p.key);
        forall k
          ensures Get(CanonicalProps(props), k) == if Get(props, k).Some? then Some(Canonical(Get(props, k).value)) else None
        {
          InsertedGets(p, rest, k);
        }
      } else {
        GetMember(props[1..], props[0].key);
      }
    }
  }

  lemma {:induction false} SortedDecided(a: seq<Prop>, b: seq<Prop>)
    requires Sorted(a) && Sorted(b) && forall k :: Get(a, k) == Get(b, k)
    ensures a == b
    decreases |a|
  {
    if a == [] || b == [] {
      assert a != [] ==> Get(a, a[0].key).Some?;
      assert b != [] ==> Get(b, b[0].key).Some?;
    } else {
      SameHead(a, b);
      forall k
        ensures Get(a[1..], k) == Get(b[1..], k)
      {
        assert Get(a, k) == Get(b, k);
        if k == a[0].key { SortedTail(a); SortedTail(b); }
      }
      SortedDecided(a[1..], b[1..]);
      assert a == [a[0]] + a[1..] && b == [b[0]] + b[1..];
    }
  }

  lemma FirstIsLeast(a: seq<Prop>, k: string)
    requires Sorted(a) && k in Keys(a)
    ensures a != [] && (k == a[0].key || Before(a[0].key, k))
  {
    var i :| 0 <= i < |a| && a[i].key == k;
    if i > 0 { assert Before(a[0].key, a[i].key); }
  }

  lemma SameHead(a: seq<Prop>, b: seq<Prop>)
    requires Sorted(a) && Sorted(b) && a != [] && b != [] && forall k :: Get(a, k) == Get(b, k)
    ensures a[0] == b[0]
  {
    assert Get(a, a[0].key) == a[0].value && Get(b, b[0].key) == b[0].value;
    GetMember(a, b[0].key);
    GetMember(b, a[0].key);
    FirstIsLeast(a, b[0].key);
    FirstIsLeast(b, a[0].key);
    BeforeTotal(a[0].key, b[0].key);
  }

  lemma SortedTail(a: seq<Prop>)
    requires Sorted(a) && a != []
    ensures Get(a[1..], a[0].key) == None
  {
    GetMember(a[1..], a[0].key);
    BeforeTotal(a[0].key, a[0].key);
  }

  // ---------------------------------------------------------------------------
  // One canonical form exactly for the same values
  // ---------------------------------------------------------------------------

  lemma {:induction false} CanonicalIff(a: Js, b: Js)
    requires Proper(a) && Proper(b)
    ensures Canonical(a) == Canonical(b) <==> Same(a, b)
    decreases a
  {
    match a
    case Arr(x) => if b.Arr? { ItemsIff(x, b.items); }
    case Obj(p) =>
      if b.Obj? {
        PropsIff(p, b.props);
        assert Same(a, b) <==> SameProps(p, b.props) && Covers(p, b.props);
      }
    case _ =>
  }

  lemma {:induction false} ItemsIff(x: seq<Js>, y: seq<Js>)
    requires (forall i | 0 <= i < |x| :: Proper(x[i])) && (forall i | 0 <= i < |y| :: Proper(y[i]))
    ensures CanonicalItems(x) == CanonicalItems(y) <==> |x| == |y| && forall i | 0 <= i < |x| :: Same(x[i], y[i])
    decreases x
  {
    if x != [] && y != [] {
      hide Canonical, Same, Proper;
      CanonicalIff(x[0], y[0]);
      ItemsIff(x[1..], y[1..]);
      ItemsCons(x, y);
      assert (forall i | 0 <= i < |x| :: |x| == |y| && Same(x[i], y[i])) <==>
             |x| == |y| && Same(x[0], y[0]) && forall i | 0 <= i < |x[1..]| :: Same(x[1..][i], y[1..][i]) by {
        if |x| == |y| && Same(x[0], y[0]) && (forall i | 0 <= i < |x[1..]| :: Same(x[1..][i], y[1..][i])) {
          forall i | 0 <= i < |x| ensures Same(x[i], y[i]) { if i > 0 { assert x[i] == x[1..][i - 1] && y[i] == y[1..][i - 1]; } }
        }
      }
    }
  }

  lemma ItemsCons(x: seq<Js>, y: seq<Js>)
    requires x != [] && y != []
    ensures CanonicalItems(x) == CanonicalItems(y) <==>
            Canonical(x[0]) == Canonical(y[0]) && CanonicalItems(x[1..]) == CanonicalItems(y[1..])
  {
    hide Canonical;
    var a, b := CanonicalItems(x), CanonicalItems(y);
    assert a[0] == Canonical(x[0]) && a[1..] == CanonicalItems(x[1..]);
    assert b[0] == Canonical(y[0]) && b[1..] == CanonicalItems(y[1..]);
  }

  lemma {:induction false} ProperGet(props: seq<Prop>, k: string)
    requires ProperProps(props) && Get(props, k).Some?
    ensures Proper(Get(props, k).value)
    decreases |props|
  {
    if props[0].key != k { ProperGet(props[1..], k); }
  }

  lemma {:induction false} GetAt(props: seq<Prop>, i: nat)
    requires ProperProps(props) && i < |props|
    ensures Get(props, props[i].key) == props[i].value
    ensures props[i].value.Some? ==> Proper(props[i].value.value)
    decreases i
  {
    if i > 0 {
      GetAt(props[1..], i - 1);
      assert props[1..][i - 1] in props[1..];
    }
  }

  lemma {:induction false} IndexOf(props: seq<Prop>, k: string) returns (i: nat)
    requires Get(props, k).Some?
    ensures i < |props| && props[i].key == k && props[i].value == Get(props, k)
  {
    if props[0].key == k { i := 0; } else { var j := IndexOf(props[1..], k); i := j + 1; }
  }

  lemma {:induction false} PropsIff(p: seq<Prop>, q: seq<Prop>)
    requires ProperProps(p) && ProperProps(q)
    ensures CanonicalProps(p) == CanonicalProps(q) <==> SameProps(p, q) && Covers(p, q)
    decreases p, 0
  {
    hide Canonical, Same, CanonicalProps, Get;
    CanonicalGets(p);
    CanonicalGets(q);
    forall i | 0 <= i < |p| && p[i].value.Some? && Get(q, p[i].key).Some?
      ensures Canonical(p[i].value.value) == Canonical(Get(q, p[i].key).value) <==> Same(p[i].value.value, Get(q, p[i].key).value)
    {
      GetAt(p, i);
      ProperGet(q, p[i].key);
      CanonicalIff(p[i].value.value, Get(q, p[i].key).value);
    }
    if CanonicalProps(p) == CanonicalProps(q) {
      forall i | 0 <= i < |p| && p[i].value.Some?
        ensures Get(q, p[i].key).Some? && Canonical(p[i].value.value) == Canonical(Get(q, p[i].key).value)
      {
        GetAt(p, i);
        assert Get(CanonicalProps(p), p[i].key) == Get(CanonicalProps(q), p[i].key);
      }
      forall k | Get(q, k).Some?
        ensures Get(p, k).Some?
      {
        assert Get(CanonicalProps(p), k) == Get(CanonicalProps(q), k);
      }
      assert SameProps(p, q);
    }
    if SameProps(p, q) && Covers(p, q) {
      forall k
        ensures Get(CanonicalProps(p), k) == Get(CanonicalProps(q), k)
      {
        if Get(p, k).Some? {
          var i := IndexOf(p, k);
          assert Same(p[i].value.value, Get(q, p[i].key).value);
        } else {
          assert Get(q, k).None?;
        }
      }
      SortedDecided(CanonicalProps(p), CanonicalProps(q));
      assert CanonicalProps(p) == CanonicalProps(q);
    }
  }

  // ---------------------------------------------------------------------------
  // JSON text
  // ---------------------------------------------------------------------------

  /** A string or a number is one token: its quoting and its digits decide it. */
  datatype Tok = TNull | TBool(b: bool) | TNum(n: real) | TStr(s: string) | Open | Close | OpenObj | CloseObj | Colon | Comma

  function Written(v: Js): seq<Tok>
    decreases v
  {
    match v
    case Null => [TNull]
    case Bool(b) => [TBool(b)]
    case Num(n) => [TNum(n)]
    case Str(s) => [TStr(s)]
    case Arr(items) => [Open] + WrittenItems(items, true)
    case Obj(props) => [OpenObj] + WrittenProps(props, true)
  }

  function WrittenItems(items: seq<Js>, first: bool): seq<Tok>
    decreases items
  {
    if items == [] then [Close]
    else (if first then [] else [Comma]) + Written(items[0]) + WrittenItems(items[1..], false)
  }

  function WrittenProps(props: seq<Prop>, first: bool): seq<Tok>
    decreases props
  {
    if props == [] then [CloseObj]
    else
      match props[0].value
      case None => WrittenProps(props[1..], first)
      case Some(v) =>
        (if first then [] else [Comma]) + [TStr(props[0].key), Colon] + Written(v) + WrittenProps(props[1..], false)
  }

  /** Nothing undefined left anywhere. */
  ghost predicate Defined(v: Js)
    decreases v
  {
    match v
    case Arr(items) => forall i | 0 <= i < |items| :: Defined(items[i])
    case Obj(props) => AllDefined(props)
    case _ => true
  }

  ghost predicate AllDefined(props: seq<Prop>)
    decreases props
  {
    forall i | 0 <= i < |props| :: props[i].value.Some? && Defined(props[i].value.value)
  }

  lemma {:induction false} WrittenHead(v: Js)
    ensures Written(v) != [] && Written(v)[0] != Close && Written(v)[0] != CloseObj && Written(v)[0] != Comma
  {
  }

  lemma CancelHead<T>(a: seq<T>, b: seq<T>, x: T, y: T)
    requires [x] + a == [y] + b
    ensures x == y && a == b
  {
    assert ([x] + a)[0] == x && ([y] + b)[0] == y;
    assert ([x] + a)[1..] == a && ([y] + b)[1..] == b;
  }

  /** JSON text can be read only one way, whatever follows it. */
  lemma {:induction false} ReadOneWay(a: Js, b: Js, r: seq<Tok>, s: seq<Tok>)
    requires Defined(a) && Defined(b) && Written(a) + r == Written(b) + s
    ensures a == b && r == s
    decreases a
  {
    assert (Written(a) + r)[0] == Written(a)[0] && (Written(b) + s)[0] == Written(b)[0] by { WrittenHead(a); WrittenHead(b); }
    match a
    case Arr(x) =>
      Assoc([Open], WrittenItems(x, true), r);
      Assoc([Open], WrittenItems(b.items, true), s);
      CancelHead(WrittenItems(x, true) + r, WrittenItems(b.items, true) + s, Open, Open);
      ItemsOneWay(x, b.items, true, r, s);
    case Obj(p) =>
      Assoc([OpenObj], WrittenProps(p, true), r);
      Assoc([OpenObj], WrittenProps(b.props, true), s);
      CancelHead(WrittenProps(p, true) + r, WrittenProps(b.props, true) + s, OpenObj, OpenObj);
      PropsOneWay(p, b.props, true, r, s);
    case _ => CancelHead(r, s, Written(a)[0], Written(b)[0]);
  }

  lemma {:induction false} ItemsOneWay(x: seq<Js>, y: seq<Js>, first: bool, r: seq<Tok>, s: seq<Tok>)
    requires (forall i | 0 <= i < |x| :: Defined(x[i])) && (forall i | 0 <= i < |y| :: Defined(y[i]))
    requires WrittenItems(x, first) + r == WrittenItems(y, first) + s
    ensures x == y && r == s
    decreases x
  {
    hide Defined, Written;
    ItemsHead(x, first, r);
    ItemsHead(y, first, s);
    if x == [] {
      CancelHead(r, s, Close, Close);
    } else {
      var c := if first then [] else [Comma];
      var a, b := WrittenItems(x[1..], false) + r, WrittenItems(y[1..], false) + s;
      Assoc(c + Written(x[0]), WrittenItems(x[1..], false), r);
      Assoc(c + Written(y[0]), WrittenItems(y[1..], false), s);
      Assoc(c, Written(x[0]), a);
      Assoc(c, Written(y[0]), b);
      CancelPrefix(c, Written(x[0]) + a, Written(y[0]) + b);
      ReadOneWay(x[0], y[0], a, b);
      ItemsOneWay(x[1..], y[1..], false, r, s);
      assert x == [x[0]] + x[1..] && y == [y[0]] + y[1..];
    }
  }

  /** Whether the list is over shows in its first token. */
  lemma ItemsHead(x: seq<Js>, first: bool, r: seq<Tok>)
    ensures |WrittenItems(x, first) + r| > 0 && ((WrittenItems(x, first) + r)[0] == Close <==> x == [])
  {
    if x != [] { WrittenHead(x[0]); }
  }

  lemma CancelPrefix<T>(c: seq<T>, a: seq<T>, b: seq<T>)
    requires c + a == c + b
    ensures a == b
  {
    assert (c + a)[|c|..] == a && (c + b)[|c|..] == b;
  }

  lemma PropsHead(p: seq<Prop>, first: bool, r: seq<Tok>)
    requires AllDefined(p)
    ensures |WrittenProps(p, first) + r| > 0 && ((WrittenProps(p, first) + r)[0] == CloseObj <==> p == [])
  {
    hide Defined, Written;
  }

  lemma {:induction false} PropsOneWay(p: seq<Prop>, q: seq<Prop>, first: bool, r: seq<Tok>, s: seq<Tok>)
    requires AllDefined(p) && AllDefined(q) && WrittenProps(p, first) + r == WrittenProps(q, first) + s
    ensures p == q && r == s
    decreases p
  {
    hide Defined, Written;
    PropsHead(p, first, r);
    PropsHead(q, first, s);
    if p == [] {
      CancelHead(r, s, CloseObj, CloseObj);
    } else {
      var c := if first then [] else [Comma];
      var v, w := Written(p[0].value.value), Written(q[0].value.value);
      var a, b := WrittenProps(p[1..], false) + r, WrittenProps(q[1..], false) + s;
      PropStep(p, first, r);
      PropStep(q, first, s);
      CancelPrefix(c, [TStr(p[0].key)] + ([Colon] + (v + a)), [TStr(q[0].key)] + ([Colon] + (w + b)));
      CancelHead([Colon] + (v + a), [Colon] + (w + b), TStr(p[0].key), TStr(q[0].key));
      CancelHead(v + a, w + b, Colon, Colon);
      ReadOneWay(p[0].value.value, q[0].value.value, a, b);
      PropsOneWay(p[1..], q[1..], false, r, s);
      assert p == [p[0]] + p[1..] && q == [q[0]] + q[1..];
    }
  }

  lemma PropStep(p: seq<Prop>, first: bool, r: seq<Tok>)
    requires p != [] && p[0].value.Some?
    ensures WrittenProps(p, first) + r ==
            (if first then [] else [Comma]) +
            ([TStr(p[0].key)] + ([Colon] + (Written(p[0].value.value) + (WrittenProps(p[1..], false) + r))))
  {
    hide Written, WrittenProps;
    var c, v, t := if first then [] else [Comma], Written(p[0].value.value), WrittenProps(p[1..], false);
    PropUnfolds(p, first);
    assert [TStr(p[0].key), Colon] == [TStr(p[0].key)] + [Colon];
    Assoc(c + [TStr(p[0].key), Colon] + v, t, r);
    Assoc(c + [TStr(p[0].key), Colon], v, t + r);
    Assoc(c, [TStr(p[0].key), Colon], v + (t + r));
    Assoc([TStr(p[0].key)], [Colon], v + (t + r));
  }

  lemma PropUnfolds(p: seq<Prop>, first: bool)
    requires p != [] && p[0].value.Some?
    ensures WrittenProps(p, first) ==
            (if first then [] else [Comma]) + [TStr(p[0].key), Colon] + Written(p[0].value.value) + WrittenProps(p[1..], false)
  {
    hide Written;
  }

  lemma {:induction false} CanonicalDefined(v: Js)
    ensures Defined(Canonical(v))
    decreases v
  {
    match v
    case Arr(items) => ItemsDefined(items);
    case Obj(props) => PropsDefined(props);
    case _ =>
  }

  lemma {:induction false} ItemsDefined(items: seq<Js>)
    ensures forall i | 0 <= i < |CanonicalItems(items)| :: Defined(CanonicalItems(items)[i])
    decreases items
  {
    if items != [] {
      CanonicalDefined(items[0]);
      ItemsDefined(items[1..]);
    }
  }

  lemma {:induction false} PropsDefined(props: seq<Prop>)
    ensures AllDefined(CanonicalProps(props))
    decreases props
  {
    if props != [] {
      hide Defined, Canonical;
      PropsDefined(props[1..]);
      if props[0].value.Some? {
        CanonicalDefined(props[0].value.value);
        InsertedDefined(Prop(props[0].key, Some(Canonical(props[0].value.value))), CanonicalProps(props[1..]));
      }
    }
  }

  lemma {:induction false} InsertedDefined(p: Prop, sorted: seq<Prop>)
    requires p.value.Some? && Defined(p.value.value) && AllDefined(sorted)
    ensures AllDefined(Inserted(p, sorted))
    decreases |sorted|
  {
    hide Defined;
    if sorted != [] && !Before(p.key, sorted[0].key) { InsertedDefined(p, sorted[1..]); }
  }

  /** `JSON.stringify(canonical(query))`. */
  function Key(v: Js): seq<Tok> { Written(Canonical(v)) }

  /** One key exactly for queries that are the same up to key order and undefined parts. */
  lemma KeyIff(a: Js, b: Js)
    requires Proper(a) && Proper(b)
    ensures Key(a) == Key(b) <==> Same(a, b)
  {
    hide Canonical, Written, Same;
    CanonicalIff(a, b);
    if Key(a) == Key(b) {
      CanonicalDefined(a);
      CanonicalDefined(b);
      assert Written(Canonical(a)) + [] == Written(Canonical(b)) + [];
      ReadOneWay(Canonical(a), Canonical(b), [], []);
    }
  }
}
