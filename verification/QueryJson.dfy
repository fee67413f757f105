/** Queries as the objects they are written as, and the key each is filed under. */
module QueryJson {
  import opened Sequences
  import opened Filters
  import opened Statements
  import opened QueryKeys

  type Key = seq<QueryKeys.Tok>

  function Has(key: string, v: Js): Prop { Prop(key, Some(v)) }

  function May(key: string, v: Option<Js>): Prop { Prop(key, v) }

  // ---------------------------------------------------------------------------
  // Writing
  // ---------------------------------------------------------------------------

  function ColumnJs(c: Column): Js {
    Str(match c
        case Time => "time"
        case Name => "name"
        case Severity => "severity"
        case EntryId => "entry_id"
        case IngestedAt => "ingested_at")
  }

  function ReadingJs(r: Reading): Js { Str(if r == AsText then "text" else "number") }

  function Strings(ss: seq<string>): seq<Js> { if ss == [] then [] else [Str(ss[0])] + Strings(ss[1..]) }

  function FieldJs(f: Field): Js {
    match f
    case ColumnOf(c) => Obj([Has("kind", Str("column")), Has("column", ColumnJs(c))])
    case Attribute(path, reading) =>
      Obj([Has("kind", Str("attribute")), Has("path", Arr(Strings(path))), May("as", Mapped(reading, ReadingJs))])
    case Unique => Obj([Has("kind", Str("unique"))])
  }

  function ValueJs(v: Value): Js {
    match v
    case SStr(s) => Str(s)
    case SNum(n) => Num(n)
    case SBool(b) => Bool(b)
    case SNull => Null
  }

  function Values(vs: seq<Value>): seq<Js> { if vs == [] then [] else [ValueJs(vs[0])] + Values(vs[1..]) }

  function OpName(f: Filter): string {
    match f
    case All(_) => "and"
    case Any(_) => "or"
    case Not(_) => "not"
    case Eq(_, _) => "eq"
    case Ne(_, _) => "ne"
    case In(_, _) => "in"
    case NotIn(_, _) => "not_in"
    case Compare(o, _, _) => (match o case Lt => "lt" case Lte => "lte" case Gt => "gt" case Gte => "gte")
    case Match(p, _, _) => (match p case Containing => "contains" case Starting => "starts_with" case Ending => "ends_with")
    case Exists(_) => "exists"
    case NotExists(_) => "not_exists"
  }

  function FilterJs(f: Filter): Js
    decreases f
  {
    var op := Has("op", Str(OpName(f)));
    match f
    case All(fs) => Obj([op, Has("filters", Arr(FiltersJs(fs)))])
    case Any(fs) => Obj([op, Has("filters", Arr(FiltersJs(fs)))])
    case Not(g) => Obj([op, Has("filter", FilterJs(g))])
    case Eq(field, v) => Obj([op, Has("field", FieldJs(field)), Has("value", ValueJs(v))])
    case Ne(field, v) => Obj([op, Has("field", FieldJs(field)), Has("value", ValueJs(v))])
    case In(field, vs) => Obj([op, Has("field", FieldJs(field)), Has("values", Arr(Values(vs)))])
    case NotIn(field, vs) => Obj([op, Has("field", FieldJs(field)), Has("values", Arr(Values(vs)))])
    case Compare(_, field, v) => Obj([op, Has("field", FieldJs(field)), Has("value", ValueJs(v))])
    case Match(_, field, text) => Obj([op, Has("field", FieldJs(field)), Has("value", Str(text))])
    case Exists(field) => Obj([op, Has("field", FieldJs(field))])
    case NotExists(field) => Obj([op, Has("field", FieldJs(field))])
  }

  function FiltersJs(fs: seq<Filter>): seq<Js>
    decreases fs
  {
    if fs == [] then [] else [FilterJs(fs[0])] + FiltersJs(fs[1..])
  }

  function AggregationJs(a: Aggregation): Js {
    match a
    case Count => Obj([Has("fn", Str("count"))])
    case CountDistinct(f) => Obj([Has("fn", Str("count_distinct")), Has("field", FieldJs(f))])
    case Of(m, f) => Obj([Has("fn", Str(MeasureName(m))), Has("field", FieldJs(f))])
    case Percentile(f, p) => Obj([Has("fn", Str("percentile")), Has("field", FieldJs(f)), Has("p", Num(p))])
  }

  function OrderKeyJs(k: OrderKey): Js {
    match k
    case ByBucket => Obj([Has("bucket", Bool(true))])
    case ByGroup(i) => Obj([Has("group", Num(i as real))])
    case ByAggregate(i) => Obj([Has("aggregate", Num(i as real))])
  }

  function OrderingJs(o: Ordering): Js {
    Obj([Has("key", OrderKeyJs(o.key)), Has("direction", Str(if o.descending then "desc" else "asc"))])
  }

  function BucketJs(b: Bucket): Js { Obj([Has("unit", Str(UnitName(b.unit))), Has("timezone", Str(b.timezone))]) }

  function Fields(fs: seq<Field>): seq<Js> { if fs == [] then [] else [FieldJs(fs[0])] + Fields(fs[1..]) }

  function Aggregations(s: seq<Aggregation>): seq<Js> { if s == [] then [] else [AggregationJs(s[0])] + Aggregations(s[1..]) }

  function Orderings(s: seq<Ordering>): seq<Js> { if s == [] then [] else [OrderingJs(s[0])] + Orderings(s[1..]) }

  function Mapped<T>(o: Option<T>, f: T -> Js): Option<Js> { if o.Some? then Some(f(o.value)) else None }

  /** A query with its parts in the order the type lists them. */
  function QueryJs(q: Query): Js {
    Obj([
      May("filter", Mapped(q.filter, FilterJs)),
      May("groupBy", Mapped(q.groupBy, fs => Arr(Fields(fs)))),
      Has("aggregations", Arr(Aggregations(q.aggregations))),
      May("bucket", Mapped(q.bucket, BucketJs)),
      May("orderBy", Mapped(q.orderBy, os => Arr(Orderings(os)))),
      May("limit", Mapped(q.limit, (n: int) => Num(n as real))),
      May("withTotal", Mapped(q.withTotal, b => Bool(b))),
      May("fill", Mapped(q.fill, b => Bool(b)))])
  }

  /** `queryKey`. */
  function QueryKey(q: Query): Key { QueryKeys.Key(QueryJs(q)) }

  // ---------------------------------------------------------------------------
  // Names
  // ---------------------------------------------------------------------------

  /** Enough of a short name to tell it from the others. */
  function Mark(s: string): (int, char, char) {
    (|s|, if s == "" then ' ' else s[0], if |s| < 2 then ' ' else s[1])
  }

  lemma OpNamesDiffer(f: Filter, g: Filter)
    requires OpName(f) == OpName(g)
    ensures f.All? == g.All? && f.Any? == g.Any? && f.Not? == g.Not? && f.Eq? == g.Eq? && f.Ne? == g.Ne?
    ensures f.In? == g.In? && f.NotIn? == g.NotIn? && f.Exists? == g.Exists? && f.NotExists? == g.NotExists?
    ensures f.Compare? == g.Compare? && (f.Compare? ==> f.order == g.order)
    ensures f.Match? == g.Match? && (f.Match? ==> f.pattern == g.pattern)
  {
    assert Mark(OpName(f)) == Mark(OpName(g));
    MarkOp(f);
    MarkOp(g);
  }

  lemma MarkOp(f: Filter)
    ensures Mark(OpName(f)) ==
            match f
            case All(_) => (3, 'a', 'n')
            case Any(_) => (2, 'o', 'r')
            case Not(_) => (3, 'n', 'o')
            case Eq(_, _) => (2, 'e', 'q')
            case Ne(_, _) => (2, 'n', 'e')
            case In(_, _) => (2, 'i', 'n')
            case NotIn(_, _) => (6, 'n', 'o')
            case Compare(o, _, _) =>
              (match o case Lt => (2, 'l', 't') case Lte => (3, 'l', 't') case Gt => (2, 'g', 't') case Gte => (3, 'g', 't'))
            case Match(p, _, _) => (match p case Containing => (8, 'c', 'o') case Starting => (11, 's', 't') case Ending => (9, 'e', 'n'))
            case Exists(_) => (6, 'e', 'x')
            case NotExists(_) => (10, 'n', 'o')
  {
  }

  // ---------------------------------------------------------------------------
  // No object has a key twice
  // ---------------------------------------------------------------------------

  ghost predicate KeysApart(props: seq<Prop>) { forall i, j | 0 <= i < j < |props| :: props[i].key != props[j].key }

  lemma {:induction false} ApartIsProper(props: seq<Prop>)
    requires KeysApart(props)
    requires forall i | 0 <= i < |props| && props[i].value.Some? :: Proper(props[i].value.value)
    ensures ProperProps(props)
    decreases |props|
  {
    hide Proper;
    if props != [] {
      var rest := props[1..];
      forall i, j | 0 <= i < j < |rest|
        ensures rest[i].key != rest[j].key
      {
        assert rest[i] == props[i + 1] && rest[j] == props[j + 1];
      }
      forall i | 0 <= i < |rest| && rest[i].value.Some?
        ensures Proper(rest[i].value.value)
      {
        assert rest[i] == props[i + 1];
      }
      ApartIsProper(rest);
      assert forall i | 0 <= i < |rest| :: rest[i] == props[i + 1];
    }
  }

  lemma PropLists()
    ensures Mark("kind") == (4, 'k', 'i') && Mark("column") == (6, 'c', 'o') && Mark("path") == (4, 'p', 'a') && Mark("as") == (2, 'a', 's')
    ensures Mark("op") == (2, 'o', 'p') && Mark("filters") == (7, 'f', 'i') && Mark("filter") == (6, 'f', 'i')
    ensures Mark("field") == (5, 'f', 'i') && Mark("value") == (5, 'v', 'a') && Mark("values") == (6, 'v', 'a')
    ensures Mark("fn") == (2, 'f', 'n') && Mark("p") == (1, 'p', ' ') && Mark("key") == (3, 'k', 'e') && Mark("direction") == (9, 'd', 'i')
    ensures Mark("unit") == (4, 'u', 'n') && Mark("timezone") == (8, 't', 'i')
    ensures Mark("bucket") == (6, 'b', 'u') && Mark("group") == (5, 'g', 'r') && Mark("aggregate") == (9, 'a', 'g')
    ensures Mark("groupBy") == (7, 'g', 'r') && Mark("aggregations") == (12, 'a', 'g') && Mark("orderBy") == (7, 'o', 'r')
    ensures Mark("limit") == (5, 'l', 'i') && Mark("withTotal") == (9, 'w', 'i') && Mark("fill") == (4, 'f', 'i')
  {
  }

  lemma StringsProper(ss: seq<string>)
    ensures |Strings(ss)| == |ss| && forall i | 0 <= i < |ss| :: Strings(ss)[i] == Str(ss[i])
  {
  }

  lemma FieldProper(f: Field)
    ensures Proper(FieldJs(f))
  {
    hide Mark;
    PropLists();
    match f
    case ColumnOf(c) => ApartIsProper(FieldJs(f).props);
    case Attribute(path, _) =>
      StringsProper(path);
      assert Proper(Arr(Strings(path)));
      ApartIsProper(FieldJs(f).props);
    case Unique => ApartIsProper(FieldJs(f).props);
  }

  lemma ValuesProper(vs: seq<Value>)
    ensures |Values(vs)| == |vs| && forall i | 0 <= i < |vs| :: Values(vs)[i] == ValueJs(vs[i])
    ensures Proper(Arr(Values(vs)))
  {
  }

  lemma {:induction false} FilterProper(f: Filter)
    ensures Proper(FilterJs(f))
    decreases f
  {
    hide Mark, OpName, FieldJs, Values;
    PropLists();
    if !f.All? && !f.Any? && !f.Not? { FieldProper(f.field); }
    match f
    case All(fs) => FiltersProper(fs); assert Proper(Arr(FiltersJs(fs))); ApartIsProper(FilterJs(f).props);
    case Any(fs) => FiltersProper(fs); assert Proper(Arr(FiltersJs(fs))); ApartIsProper(FilterJs(f).props);
    case Not(g) => FilterProper(g); ApartIsProper(FilterJs(f).props);
    case In(_, vs) => ValuesProper(vs); ApartIsProper(FilterJs(f).props);
    case NotIn(_, vs) => ValuesProper(vs); ApartIsProper(FilterJs(f).props);
    case _ => ApartIsProper(FilterJs(f).props);
  }

  lemma {:induction false} FiltersProper(fs: seq<Filter>)
    ensures forall i | 0 <= i < |FiltersJs(fs)| :: Proper(FiltersJs(fs)[i])
    decreases fs
  {
    if fs != [] {
      FilterProper(fs[0]);
      FiltersProper(fs[1..]);
    }
  }

  lemma AggregationProper(a: Aggregation)
    ensures Proper(AggregationJs(a))
  {
    hide Mark, FieldJs;
    PropLists();
    if !a.Count? { FieldProper(a.field); }
    ApartIsProper(AggregationJs(a).props);
  }

  lemma OrderingProper(o: Ordering)
    ensures Proper(OrderingJs(o))
  {
    hide Mark;
    PropLists();
    ApartIsProper(OrderKeyJs(o.key).props);
    ApartIsProper(OrderingJs(o).props);
  }

  lemma {:induction false} FieldsProper(fs: seq<Field>)
    ensures forall i | 0 <= i < |Fields(fs)| :: Proper(Fields(fs)[i])
  {
    if fs != [] { FieldProper(fs[0]); FieldsProper(fs[1..]); }
  }

  lemma {:induction false} AggregationsProper(s: seq<Aggregation>)
    ensures forall i | 0 <= i < |Aggregations(s)| :: Proper(Aggregations(s)[i])
  {
    if s != [] { AggregationProper(s[0]); AggregationsProper(s[1..]); }
  }

  lemma {:induction false} OrderingsProper(s: seq<Ordering>)
    ensures forall i | 0 <= i < |Orderings(s)| :: Proper(Orderings(s)[i])
  {
    if s != [] { OrderingProper(s[0]); OrderingsProper(s[1..]); }
  }

  lemma BucketProper(b: Bucket)
    ensures Proper(BucketJs(b))
  {
    hide Mark;
    PropLists();
    ApartIsProper(BucketJs(b).props);
  }

  lemma QueryProper(q: Query)
    ensures Proper(QueryJs(q))
  {
    hide Mark, FilterJs, Fields, Aggregations, BucketJs, Orderings;
    PropLists();
    if q.filter.Some? { FilterProper(q.filter.value); }
    if q.bucket.Some? { BucketProper(q.bucket.value); }
    ListsProper(q);
    ApartIsProper(QueryJs(q).props);
  }

  lemma ListsProper(q: Query)
    ensures q.groupBy.Some? ==> Proper(Arr(Fields(q.groupBy.value)))
    ensures Proper(Arr(Aggregations(q.aggregations)))
    ensures q.orderBy.Some? ==> Proper(Arr(Orderings(q.orderBy.value)))
  {
    if q.groupBy.Some? { FieldsProper(q.groupBy.value); }
    AggregationsProper(q.aggregations);
    if q.orderBy.Some? { OrderingsProper(q.orderBy.value); }
  }

  // ---------------------------------------------------------------------------
  // The same object only for the same query
  // ---------------------------------------------------------------------------

  /** Properties standing at the same place under the same key are the same. */
  lemma Aligned(p: seq<Prop>, q: seq<Prop>, i: nat)
    requires ProperProps(p) && ProperProps(q) && Same(Obj(p), Obj(q))
    requires i < |p| && i < |q| && p[i].key == q[i].key
    ensures p[i].value.Some? == q[i].value.Some?
    ensures p[i].value.Some? ==> Same(p[i].value.value, q[i].value.value)
  {
    GetAt(p, i);
    GetAt(q, i);
    SameUnfolds(p, q);
    hide Same;
    if p[i].value.Some? {
      assert Same(p[i].value.value, Get(q, p[i].key).value);
    } else {
      assert Get(p, q[i].key).None?;
    }
  }

  lemma SameUnfolds(p: seq<Prop>, q: seq<Prop>)
    ensures Same(Obj(p), Obj(q)) <==> SameProps(p, q) && Covers(p, q)
  {
  }

  /** Whether a key is there at all. */
  lemma Present(p: seq<Prop>, q: seq<Prop>, k: string)
    requires ProperProps(p) && Same(Obj(p), Obj(q))
    ensures Get(p, k).Some? == Get(q, k).Some?
  {
    SameUnfolds(p, q);
    hide Same;
    if Get(p, k).Some? { var i := IndexOf(p, k); GetAt(p, i); }
  }

  lemma FieldSame(f: Field, g: Field)
    requires Same(FieldJs(f), FieldJs(g))
    ensures f == g
  {
    FieldProper(f);
    FieldProper(g);
    var p, q := FieldJs(f).props, FieldJs(g).props;
    Aligned(p, q, 0);
    KindsDiffer(f, g);
    match f
    case ColumnOf(c) => Aligned(p, q, 1); ColumnsDiffer(c, g.column);
    case Attribute(path, _) => Aligned(p, q, 1); StringsSame(path, g.path); Aligned(p, q, 2); ReadingsDiffer();
    case Unique =>
  }

  lemma KindsDiffer(f: Field, g: Field)
    requires Same(FieldJs(f).props[0].value.value, FieldJs(g).props[0].value.value)
    ensures f.ColumnOf? == g.ColumnOf? && f.Attribute? == g.Attribute?
  {
    assert Mark("column") == (6, 'c', 'o') && Mark("attribute") == (9, 'a', 't') && Mark("unique") == (6, 'u', 'n');
  }

  lemma ReadingsDiffer()
    ensures !Same(ReadingJs(AsText), ReadingJs(AsNumber)) && !Same(ReadingJs(AsNumber), ReadingJs(AsText))
  {
    assert Mark("text") == (4, 't', 'e') && Mark("number") == (6, 'n', 'u');
  }

  lemma ColumnsDiffer(c: Column, d: Column)
    requires Same(ColumnJs(c), ColumnJs(d))
    ensures c == d
  {
    assert Mark("time") == (4, 't', 'i') && Mark("name") == (4, 'n', 'a') && Mark("severity") == (8, 's', 'e');
    assert Mark("entry_id") == (8, 'e', 'n') && Mark("ingested_at") == (11, 'i', 'n');
  }

  lemma StringsSame(a: seq<string>, b: seq<string>)
    requires Same(Arr(Strings(a)), Arr(Strings(b)))
    ensures a == b
  {
    StringsProper(a);
    StringsProper(b);
    forall i | 0 <= i < |a|
      ensures a[i] == b[i]
    {
      assert Same(Strings(a)[i], Strings(b)[i]);
    }
  }

  lemma ValueSame(v: Value, w: Value)
    requires Same(ValueJs(v), ValueJs(w))
    ensures v == w
  {
  }

  lemma ValuesSame(a: seq<Value>, b: seq<Value>)
    requires Same(Arr(Values(a)), Arr(Values(b)))
    ensures a == b
  {
    ValuesProper(a);
    ValuesProper(b);
    forall i | 0 <= i < |a|
      ensures a[i] == b[i]
    {
      assert Same(Values(a)[i], Values(b)[i]);
      ValueSame(a[i], b[i]);
    }
  }

  predicate SameConstructor(f: Filter, g: Filter) {
    && f.All? == g.All? && f.Any? == g.Any? && f.Not? == g.Not? && f.Eq? == g.Eq? && f.Ne? == g.Ne?
    && f.In? == g.In? && f.NotIn? == g.NotIn? && f.Exists? == g.Exists? && f.NotExists? == g.NotExists?
    && f.Compare? == g.Compare? && (f.Compare? ==> f.order == g.order)
    && f.Match? == g.Match? && (f.Match? ==> f.pattern == g.pattern)
  }

  lemma OpsSame(f: Filter, g: Filter)
    requires Same(FilterJs(f), FilterJs(g))
    ensures SameConstructor(f, g)
  {
    hide Same, FieldJs, ValueJs, Values, OpName, FiltersJs, Proper, ProperProps;
    ObjectsProper(f, g);
    Aligned(FilterJs(f).props, FilterJs(g).props, 0);
    TextSame(OpName(f), OpName(g));
    OpNamesDiffer(f, g);
  }

  lemma ObjectsProper(f: Filter, g: Filter)
    ensures FilterJs(f).Obj? && ProperProps(FilterJs(f).props) && FilterJs(g).Obj? && ProperProps(FilterJs(g).props)
  {
    FilterProper(f);
    FilterProper(g);
  }

  lemma {:induction false} FilterSame(f: Filter, g: Filter)
    requires Same(FilterJs(f), FilterJs(g))
    ensures f == g
    decreases f
  {
    hide Same, OpName, FiltersJs, Proper, ProperProps;
    OpsSame(f, g);
    if f.All? || f.Any? || f.Not? {
      ObjectsProper(f, g);
      Aligned(FilterJs(f).props, FilterJs(g).props, 1);
      match f
      case All(fs) => FiltersSame(fs, g.filters);
      case Any(fs) => FiltersSame(fs, g.filters);
      case Not(h) => FilterSame(h, g.filter);
    } else {
      LeafSame(f, g);
    }
  }

  lemma LeafSame(f: Filter, g: Filter)
    requires Same(FilterJs(f), FilterJs(g)) && SameConstructor(f, g) && !f.All? && !f.Any? && !f.Not?
    ensures f == g
  {
    hide Same, OpName, Proper, ProperProps, FieldJs, ValueJs, Values;
    ObjectsProper(f, g);
    var p, q := FilterJs(f).props, FilterJs(g).props;
    Aligned(p, q, 1);
    FieldSame(f.field, g.field);
    if !f.Exists? && !f.NotExists? {
      Aligned(p, q, 2);
      ArgumentSame(f, g, p[2].value.value, q[2].value.value);
    }
  }

  lemma ArgumentSame(f: Filter, g: Filter, x: Js, y: Js)
    requires SameConstructor(f, g) && Same(x, y)
    requires !f.All? && !f.Any? && !f.Not? && !f.Exists? && !f.NotExists?
    requires x == FilterJs(f).props[2].value.value && y == FilterJs(g).props[2].value.value
    ensures f.Match? ==> f.text == g.text
    ensures f.In? || f.NotIn? ==> f.values == g.values
    ensures f.Eq? || f.Ne? || f.Compare? ==> f.value == g.value
  {
    hide Same, OpName, FieldJs, ValueJs, Values;
    if f.Match? {
      TextSame(f.text, g.text);
    } else if f.In? || f.NotIn? {
      ValuesSame(f.values, g.values);
    } else {
      ValueSame(f.value, g.value);
    }
  }

  lemma TextSame(s: string, t: string)
    ensures Same(Str(s), Str(t)) <==> s == t
  {
  }

  lemma {:induction false} FiltersSame(a: seq<Filter>, b: seq<Filter>)
    requires Same(Arr(FiltersJs(a)), Arr(FiltersJs(b)))
    ensures a == b
    decreases a
  {
    var x, y := FiltersJs(a), FiltersJs(b);
    assert |x| == |y|;
    if a != [] && b != [] {
      assert Same(x[0], y[0]);
      FilterSame(a[0], b[0]);
      forall i | 0 <= i < |x[1..]|
        ensures Same(x[1..][i], y[1..][i])
      {
        assert Same(x[i + 1], y[i + 1]);
      }
      FiltersSame(a[1..], b[1..]);
      assert a == [a[0]] + a[1..] && b == [b[0]] + b[1..];
    }
  }

  lemma AggregationSame(a: Aggregation, b: Aggregation)
    requires Same(AggregationJs(a), AggregationJs(b))
    ensures a == b
  {
    hide Same, FieldJs;
    AggregationProper(a);
    AggregationProper(b);
    var p, q := AggregationJs(a).props, AggregationJs(b).props;
    Aligned(p, q, 0);
    TextSame(FnName(a), FnName(b));
    FnNamesDiffer(a, b);
    if !a.Count? {
      Aligned(p, q, 1);
      FieldSame(a.field, b.field);
    }
    if a.Percentile? {
      Aligned(p, q, 2);
      NumberSame(a.p, b.p);
    }
  }

  lemma NumberSame(m: real, n: real)
    ensures Same(Num(m), Num(n)) <==> m == n
  {
  }

  function FnName(a: Aggregation): string {
    match a
    case Count => "count"
    case CountDistinct(_) => "count_distinct"
    case Of(m, _) => MeasureName(m)
    case Percentile(_, _) => "percentile"
  }

  lemma FnNamesDiffer(a: Aggregation, b: Aggregation)
    requires FnName(a) == FnName(b)
    ensures a.Count? == b.Count? && a.CountDistinct? == b.CountDistinct? && a.Percentile? == b.Percentile?
    ensures a.Of? && b.Of? ==> a.measure == b.measure
  {
    assert Mark("count") == (5, 'c', 'o') && Mark("count_distinct") == (14, 'c', 'o') && Mark("percentile") == (10, 'p', 'e');
    assert Mark("sum") == (3, 's', 'u') && Mark("avg") == (3, 'a', 'v') && Mark("min") == (3, 'm', 'i') && Mark("max") == (3, 'm', 'a');
  }

  lemma OrderKeySame(a: OrderKey, b: OrderKey)
    requires Same(OrderKeyJs(a), OrderKeyJs(b))
    ensures a == b
  {
    hide Same, Mark;
    PropLists();
    var p, q := OrderKeyJs(a).props, OrderKeyJs(b).props;
    ApartIsProper(p);
    ApartIsProper(q);
    Present(p, q, p[0].key);
    Aligned(p, q, 0);
    match a
    case ByBucket =>
    case ByGroup(i) => NumberSame(i as real, b.i as real);
    case ByAggregate(i) => NumberSame(i as real, b.i as real);
  }

  lemma OrderingSame(a: Ordering, b: Ordering)
    requires Same(OrderingJs(a), OrderingJs(b))
    ensures a == b
  {
    hide Same, OrderKeyJs;
    OrderingProper(a);
    OrderingProper(b);
    var p, q := OrderingJs(a).props, OrderingJs(b).props;
    Aligned(p, q, 0);
    OrderKeySame(a.key, b.key);
    Aligned(p, q, 1);
    TextSame(if a.descending then "desc" else "asc", if b.descending then "desc" else "asc");
    assert |"desc"| != |"asc"|;
  }

  lemma BucketSame(a: Bucket, b: Bucket)
    requires Same(BucketJs(a), BucketJs(b))
    ensures a == b
  {
    hide Same, UnitName;
    BucketProper(a);
    BucketProper(b);
    var p, q := BucketJs(a).props, BucketJs(b).props;
    Aligned(p, q, 0);
    TextSame(UnitName(a.unit), UnitName(b.unit));
    UnitsDiffer(a.unit, b.unit);
    Aligned(p, q, 1);
    TextSame(a.timezone, b.timezone);
  }

  lemma UnitsDiffer(a: Unit, b: Unit)
    requires UnitName(a) == UnitName(b)
    ensures a == b
  {
    assert Mark("minute") == (6, 'm', 'i') && Mark("hour") == (4, 'h', 'o') && Mark("day") == (3, 'd', 'a');
    assert Mark("week") == (4, 'w', 'e') && Mark("month") == (5, 'm', 'o');
  }

  lemma {:induction false} FieldsSame(a: seq<Field>, b: seq<Field>)
    requires Same(Arr(Fields(a)), Arr(Fields(b)))
    ensures a == b
  {
    FieldsAt(a);
    FieldsAt(b);
    forall i | 0 <= i < |a|
      ensures a[i] == b[i]
    {
      assert Same(Fields(a)[i], Fields(b)[i]);
      FieldSame(a[i], b[i]);
    }
  }

  lemma FieldsAt(a: seq<Field>)
    ensures |Fields(a)| == |a| && forall i | 0 <= i < |a| :: Fields(a)[i] == FieldJs(a[i])
  {
    hide FieldJs;
  }

  lemma AggregationsSame(a: seq<Aggregation>, b: seq<Aggregation>)
    requires Same(Arr(Aggregations(a)), Arr(Aggregations(b)))
    ensures a == b
  {
    AggregationsAt(a);
    AggregationsAt(b);
    forall i | 0 <= i < |a|
      ensures a[i] == b[i]
    {
      assert Same(Aggregations(a)[i], Aggregations(b)[i]);
      AggregationSame(a[i], b[i]);
    }
  }

  lemma AggregationsAt(a: seq<Aggregation>)
    ensures |Aggregations(a)| == |a| && forall i | 0 <= i < |a| :: Aggregations(a)[i] == AggregationJs(a[i])
  {
    hide AggregationJs;
  }

  lemma OrderingsSame(a: seq<Ordering>, b: seq<Ordering>)
    requires Same(Arr(Orderings(a)), Arr(Orderings(b)))
    ensures a == b
  {
    OrderingsAt(a);
    OrderingsAt(b);
    forall i | 0 <= i < |a|
      ensures a[i] == b[i]
    {
      assert Same(Orderings(a)[i], Orderings(b)[i]);
      OrderingSame(a[i], b[i]);
    }
  }

  lemma OrderingsAt(a: seq<Ordering>)
    ensures |Orderings(a)| == |a| && forall i | 0 <= i < |a| :: Orderings(a)[i] == OrderingJs(a[i])
  {
    hide OrderingJs;
  }

  lemma BoolSame(a: bool, b: bool)
    ensures Same(Bool(a), Bool(b)) <==> a == b
  {
  }

  /** The part at place `i` is missing from both, or the same in both. */
  lemma PartSame(a: Query, b: Query, i: nat)
    requires Same(QueryJs(a), QueryJs(b)) && i < 8
    ensures var p, q := QueryJs(a).props[i].value, QueryJs(b).props[i].value;
            p.Some? == q.Some? && (p.Some? ==> Same(p.value, q.value))
  {
    hide Same, FilterJs, Fields, Aggregations, BucketJs, Orderings, Proper, ProperProps;
    QueryObject(a);
    QueryObject(b);
    Aligned(QueryJs(a).props, QueryJs(b).props, i);
  }

  lemma QueryObject(q: Query)
    ensures QueryJs(q).Obj? && ProperProps(QueryJs(q).props)
  {
    QueryProper(q);
  }

  lemma ListPartsSame(a: Query, b: Query)
    requires Same(QueryJs(a), QueryJs(b))
    ensures a.groupBy == b.groupBy && a.aggregations == b.aggregations && a.orderBy == b.orderBy
  {
    hide Same, FilterJs, Fields, Aggregations, BucketJs, Orderings;
    PartSame(a, b, 1);
    if a.groupBy.Some? { FieldsSame(a.groupBy.value, b.groupBy.value); }
    PartSame(a, b, 2);
    AggregationsSame(a.aggregations, b.aggregations);
    PartSame(a, b, 4);
    if a.orderBy.Some? { OrderingsSame(a.orderBy.value, b.orderBy.value); }
  }

  lemma FlagPartsSame(a: Query, b: Query)
    requires Same(QueryJs(a), QueryJs(b))
    ensures a.limit == b.limit && a.withTotal == b.withTotal && a.fill == b.fill
  {
    hide Same, FilterJs, Fields, Aggregations, BucketJs, Orderings;
    PartSame(a, b, 5);
    if a.limit.Some? { NumberSame(a.limit.value as real, b.limit.value as real); }
    PartSame(a, b, 6);
    if a.withTotal.Some? { BoolSame(a.withTotal.value, b.withTotal.value); }
    PartSame(a, b, 7);
    if a.fill.Some? { BoolSame(a.fill.value, b.fill.value); }
  }

  lemma QuerySame(a: Query, b: Query)
    requires Same(QueryJs(a), QueryJs(b))
    ensures a == b
  {
    hide Same, FilterJs, Fields, Aggregations, BucketJs, Orderings;
    PartSame(a, b, 0);
    if a.filter.Some? { FilterSame(a.filter.value, b.filter.value); }
    PartSame(a, b, 3);
    if a.bucket.Some? { BucketSame(a.bucket.value, b.bucket.value); }
    ListPartsSame(a, b);
    FlagPartsSame(a, b);
  }

  /** Two queries are filed under one key only if they are one query. */
  lemma KeyDecidesQuery(a: Query, b: Query)
    requires QueryKey(a) == QueryKey(b)
    ensures a == b
  {
    hide Same, QueryJs, QueryKeys.Key;
    QueryProper(a);
    QueryProper(b);
    KeyIff(QueryJs(a), QueryJs(b));
    QuerySame(a, b);
  }
}
