/**
 * A compiled statement, read by its own words and worked on by a database, and
 * its lines decoded: the answer the query asks for, for every query, scope and table.
 */
module AnswerProof {
  import opened Sequences
  import opened Filters
  import opened Sql
  import opened Statements
  import opened Answers
  import opened Select
  import opened FoldProof
  import opened SelectProof
  import opened GroupProof
  import R = RunQueries

  // ---------------------------------------------------------------------------
  // Lines and their decoding
  // ---------------------------------------------------------------------------

  /** A raw line holds, column by column, what a line of an answer says. */
  ghost predicate Agrees(raw: RawRow, r: QueryRow, q: Query) {
    && (q.bucket.Some? <==> r.bucket.Some?) && (r.bucket.Some? ==> At(raw, AsBucket) == RTime(r.bucket.value))
    && |r.group| == |OrNone(q.groupBy)| && (forall i | 0 <= i < |r.group| :: Handed(OfText(r.group[i]), At(raw, AsGroup(i))))
    && |r.value| == |q.aggregations| && (forall i | 0 <= i < |r.value| :: Handed(OfNumber(r.value[i]), At(raw, AsValue(i))))
    && (Set(q.withTotal) <==> r.total.Some?) && (r.total.Some? ==> Handed(OfNumber(r.total.value), At(raw, AsTotal)))
  }

  lemma AgreesDecodes(raw: RawRow, r: QueryRow, q: Query, env: Env)
    requires Agrees(raw, r, q)
    ensures R.Decode(raw, q, env) == r
  {
    var d := R.Decode(raw, q, env);
    assert d.group == r.group;
    assert d.value == r.value;
  }

  lemma ColumnAt(c: Core, q: Query, scope: Scope, all: seq<V>, keys: seq<seq<V>>, gs: seq<Group>, i: nat, k: nat,
                 raw: RawRow, rows: seq<Row>, env: Env)
    requires q.aggregations != [] && CoreMeans(c, q, scope, all, env) && KeysV(keys, c, all, rows, env)
    requires Stand(q, keys, gs) && Groups(gs, q, rows, env) && i < |gs| && k < |Specs(q)|
    requires LineV(raw, c, all, keys, keys[i], rows, env)
    ensures Handed(Wanted(Specs(q)[k], q, gs, gs[i], rows, env), At(raw, NameOf(Specs(q)[k])))
  {
    hide KeysV, Stand, Groups, ItemV, Specs, Wanted, Chosen;
    ItemIs(c, q, scope, all, keys, gs, i, k, rows, env);
    NameIs(c, q, scope, all, k, env);
  }

  lemma NameIs(c: Core, q: Query, scope: Scope, all: seq<V>, k: nat, env: Env)
    requires q.aggregations != [] && CoreMeans(c, q, scope, all, env) && k < |Specs(q)|
    ensures |c.items| == |Specs(q)| && c.items[k].name == NameOf(Specs(q)[k])
  {
    hide RowV, FoldV, Chosen, Specs;
    assert Means(c.items[k], Specs(q)[k], all, env);
  }

  /** A measured line is the line of its group. */
  lemma LineAgrees(c: Core, q: Query, scope: Scope, all: seq<V>, keys: seq<seq<V>>, gs: seq<Group>, i: nat,
                   raw: RawRow, rows: seq<Row>, env: Env)
    requires q.aggregations != [] && CoreMeans(c, q, scope, all, env) && KeysV(keys, c, all, rows, env)
    requires Stand(q, keys, gs) && Groups(gs, q, rows, env) && i < |gs|
    requires LineV(raw, c, all, keys, keys[i], rows, env)
    ensures Agrees(raw, LineOf(q, gs, gs[i], rows, env), q)
  {
    hide CoreMeans, KeysV, KeyOf, Groups, LineV, Specs, ValueOf, TotalValues, Handed, Members;
    var g, r := gs[i], LineOf(q, gs, gs[i], rows, env);
    var b, n, v := if q.bucket.Some? then 1 else 0, |OrNone(q.groupBy)|, |q.aggregations|;
    SpecAt(q);
    if q.bucket.Some? {
      ColumnAt(c, q, scope, all, keys, gs, i, 0, raw, rows, env);
      TimeHanded(g.bucket.value, At(raw, AsBucket));
    }
    forall k | 0 <= k < n
      ensures Handed(OfText(r.group[k]), At(raw, AsGroup(k)))
    {
      assert Specs(q)[b + k] == SGroup(OrNone(q.groupBy)[k], k);
      ColumnAt(c, q, scope, all, keys, gs, i, b + k, raw, rows, env);
    }
    forall k | 0 <= k < v
      ensures Handed(OfNumber(r.value[k]), At(raw, AsValue(k)))
    {
      ColumnAt(c, q, scope, all, keys, gs, i, b + n + k, raw, rows, env);
    }
    if Set(q.withTotal) { ColumnAt(c, q, scope, all, keys, gs, i, b + n + v, raw, rows, env); }
  }

  lemma TimeHanded(t: int, r: Raw)
    requires Handed(VTime(t), r)
    ensures r == RTime(t)
  {
  }

  /** What is measured is, line for line, what the query asks of its groups. */
  lemma MeasuredAgrees(c: Core, q: Query, scope: Scope, all: seq<V>, table: seq<Row>, raws: seq<RawRow>,
                       env: Env) returns (gs: seq<Group>)
    requires q.aggregations != [] && CoreMeans(c, q, scope, all, env) && Measures(c, all, table, env, raws)
    ensures Groups(gs, q, Picked(q, scope, table, env), env) && |gs| == |raws|
    ensures forall i | 0 <= i < |raws| :: Agrees(raws[i], LineOf(q, gs, gs[i], Picked(q, scope, table, env), env), q)
  {
    hide KeysV, Groups, Stand, LineV, Agrees, Chosen, Eval, Means, Specs, LineOf;
    KeptArePicked(c, q, scope, all, table, env);
    var rows := Picked(q, scope, table, env);
    var keys :| KeysV(keys, c, all, rows, env) && |raws| == |keys| &&
                forall i | 0 <= i < |raws| :: LineV(raws[i], c, all, keys, keys[i], rows, env);
    gs := GroupsFrom(q, keys);
    KeysStand(c, q, scope, all, rows, keys, env);
    GroupsMean(c, q, scope, all, rows, keys, env);
    forall i | 0 <= i < |raws|
      ensures Agrees(raws[i], LineOf(q, gs, gs[i], rows, env), q)
    {
      LineAgrees(c, q, scope, all, keys, gs, i, raws[i], rows, env);
    }
  }

  // ---------------------------------------------------------------------------
  // Order and limit
  // ---------------------------------------------------------------------------

  /** The key is one the query has. */
  predicate Has(q: Query, key: OrderKey) {
    match key
    case ByBucket => q.bucket.Some?
    case ByGroup(i) => 0 <= i < |OrNone(q.groupBy)|
    case ByAggregate(i) => 0 <= i < |q.aggregations|
  }

  function TermOf(o: Ordering): Term {
    match o.key
    case ByBucket => Term(AsBucket, o.descending, false)
    case ByGroup(i) => Term(AsGroup(if i < 0 then 0 else i), o.descending, true)
    case ByAggregate(i) => Term(AsValue(if i < 0 then 0 else i), o.descending, true)
  }

  function TermsOf(os: seq<Ordering>): seq<Term> { seq(|os|, i requires 0 <= i < |os| => TermOf(os[i])) }

  lemma CellAgrees(raw: RawRow, r: QueryRow, q: Query, o: Ordering)
    requires Agrees(raw, r, q) && Has(q, o.key)
    ensures CellOf(At(raw, TermOf(o).name)) == RankOf(o.key, r)
    ensures o.key.ByBucket? ==> RankOf(o.key, r) != CNull
  {
  }

  lemma {:induction false} OrderMeans(os: seq<Ordering>, q: Query, x: RawRow, y: RawRow, a: QueryRow, b: QueryRow, env: Env)
    requires Agrees(x, a, q) && Agrees(y, b, q) && forall o | o in os :: Has(q, o.key)
    ensures NoLater(TermsOf(os), x, y, env) <==> NotAfter(os, a, b, env)
    decreases |os|
  {
    if os != [] {
      hide Agrees, RankOf, CellOrder, CellOf, At;
      assert os[0] in os && forall o | o in os[1..] :: o in os;
      assert TermsOf(os)[0] == TermOf(os[0]) && TermsOf(os)[1..] == TermsOf(os[1..]);
      CellAgrees(x, a, q, os[0]);
      CellAgrees(y, b, q, os[0]);
      OrderMeans(os[1..], q, x, y, a, b, env);
    }
  }

  ghost predicate AllAgree(raws: seq<RawRow>, lines: seq<QueryRow>, q: Query) {
    |raws| == |lines| && forall i | 0 <= i < |raws| :: Agrees(raws[i], lines[i], q)
  }

  lemma SortedMeans(os: seq<Ordering>, q: Query, raws: seq<RawRow>, lines: seq<QueryRow>, env: Env)
    requires AllAgree(raws, lines, q) && forall o | o in os :: Has(q, o.key)
    requires Sorted(TermsOf(os), raws, env)
    ensures Arranged(os, lines, env)
  {
    hide Agrees, NoLater, NotAfter;
    forall i, j | 0 <= i < j < |lines|
      ensures NotAfter(os, lines[i], lines[j], env)
    {
      OrderMeans(os, q, raws[i], raws[j], lines[i], lines[j], env);
    }
  }

  lemma AllDecode(raws: seq<RawRow>, lines: seq<QueryRow>, q: Query, env: Env)
    requires AllAgree(raws, lines, q)
    ensures R.DecodeAll(raws, q, env) == lines
  {
    hide Agrees, R.Decode;
    forall i | 0 <= i < |raws|
      ensures R.Decode(raws[i], q, env) == lines[i]
    {
      AgreesDecodes(raws[i], lines[i], q, env);
    }
  }

  /** Where the limit was bound, if there is one. */
  ghost predicate BoundAt(n: Option<nat>, limit: Option<int>, all: seq<V>) {
    (n.Some? <==> limit.Some?) && (n.Some? ==> Bound(all, n.value) == VNum(limit.value as real))
  }

  lemma CutMeans(n: Option<nat>, q: Query, all: seq<V>, lines: seq<RawRow>, raws: seq<RawRow>, env: Env)
    requires BoundAt(n, q.limit, all) && LimitOk(q.limit) && CutOff(n, all, lines) == Some(raws)
    ensures R.DecodeAll(raws, q, env) == Limited(q.limit, R.DecodeAll(lines, q, env))
  {
    hide R.Decode;
    if q.limit.Some? {
      assert (q.limit.value as real).Floor == q.limit.value;
      assert lines[..|lines|] == lines;
    }
  }

  // ---------------------------------------------------------------------------
  // Reading the end of a statement
  // ---------------------------------------------------------------------------

  lemma OrderWords()
    ensures Word(" ASC") != Word(" DESC") && Word(" LIMIT ") !in [Word(" ASC"), Word(" DESC"), Word(" NULLS LAST")]
    ensures Word(" LIMIT ") != Word(" ORDER BY ") && Word(" LIMIT ") != Word(" GROUP BY ")
    ensures Word(" ORDER BY ") != Word(" GROUP BY ")
  {
    assert |" ASC"| == 4 && |" DESC"| == 5 && |" NULLS LAST"| == 11 && |" LIMIT "| == 7 && |" ORDER BY "| == 10;
    assert |" GROUP BY "| == 10;
    assert " ORDER BY "[1] == 'O' && " GROUP BY "[1] == 'G';
  }

  lemma TermRead(o: Ordering, q: Query)
    requires OrderItem(o, q, |OrNone(q.groupBy)|).Some?
    ensures Has(q, o.key)
    ensures var ts := OrderItem(o, q, |OrNone(q.groupBy)|).value;
            && ReadTerm(ts) == Some(TermOf(o)) && ts != []
            && forall t | t in ts :: IsOrder(t) && NotComma(t)
  {
    OrderWords();
  }

  lemma {:induction false} SpanAll(a: seq<Tok>, kind: Tok -> bool)
    requires Span(a, kind) == |a|
    ensures forall t | t in a :: kind(t)
    decreases |a|
  {
    if a != [] { SpanAll(a[1..], kind); }
  }

  lemma {:induction false} SpanStops(a: seq<Tok>, b: seq<Tok>, kind: Tok -> bool)
    requires Span(a, kind) < |a|
    ensures Span(a + b, kind) == Span(a, kind) && !kind(a[Span(a, kind)])
    decreases |a|
  {
    assert (a + b)[0] == a[0] && (a + b)[1..] == a[1..] + b;
    if kind(a[0]) { SpanStops(a[1..], b, kind); }
  }

  /** A list of terms is its first and the rest. */
  lemma TermsParts(ts: seq<Tok>, n: nat)
    requires n == Span(ts, NotComma) < |ts|
    ensures ReadTerms(ts) == match (ReadTerm(ts[..n]), ReadTerms(ts[n + 1..]))
                             case (Some(t), Some(more)) => Some([t] + more)
                             case _ => None
  {
    hide ReadTerm;
  }

  /** One more term at the end. */
  lemma {:induction false} TermsSnoc(a: seq<Tok>, item: seq<Tok>, terms: seq<Term>, term: Term)
    requires a != [] && ReadTerms(a) == Some(terms) && ReadTerm(item) == Some(term) && forall t | t in item :: NotComma(t)
    ensures ReadTerms(a + ([E(Comma)] + item)) == Some(terms + [term])
    decreases |a|
  {
    var n, b := Span(a, NotComma), [E(Comma)] + item;
    assert b[1..] == item;
    TermsOne(item, term);
    if n == |a| {
      SpanAll(a, NotComma);
      SpanIs(a, b, NotComma);
      hide ReadTerm, Span;
      assert a[..n] == a && (a + b)[..n] == a && (a + b)[n + 1..] == item;
      TermsParts(a + b, n);
      assert terms == [ReadTerm(a).value];
    } else {
      SpanStops(a, b, NotComma);
      hide ReadTerm, ReadTerms, Span;
      assert (a + b)[..n] == a[..n] && (a + b)[n + 1..] == a[n + 1..] + b;
      TermsParts(a, n);
      TermsParts(a + b, n);
      var first, more := ReadTerm(a[..n]).value, ReadTerms(a[n + 1..]).value;
      RestSome(a, n);
      TermsSnoc(a[n + 1..], item, more, term);
      Assoc([first], more, [term]);
    }
  }

  lemma TermsOne(item: seq<Tok>, term: Term)
    requires ReadTerm(item) == Some(term) && forall t | t in item :: NotComma(t)
    ensures ReadTerms(item) == Some([term])
  {
    hide ReadTerm;
    SpanIs(item, [], NotComma);
    assert item + [] == item && item[..|item|] == item;
  }

  /** Nothing is not a list of terms. */
  lemma RestSome(a: seq<Tok>, n: nat)
    requires n < |a| && ReadTerms(a[n + 1..]).Some?
    ensures a[n + 1..] != []
  {
    NoTerm();
  }

  lemma NoTerm()
    ensures ReadTerms([]).None?
  {
    assert Span([], NotComma) == 0;
    assert ReadTerm([]).None?;
  }

  lemma {:induction false} TermsRead(os: seq<Ordering>, q: Query)
    requires os != [] && OrderItems(os, q, |OrNone(q.groupBy)|).Some?
    ensures var ts := OrderItems(os, q, |OrNone(q.groupBy)|).value;
            && ts != [] && ReadTerms(ts) == Some(TermsOf(os)) && (forall t | t in ts :: IsOrder(t))
            && forall o | o in os :: Has(q, o.key)
    decreases |os|
  {
    hide OrderItem, ReadTerms, ReadTerm, IsOrder;
    var n := |OrNone(q.groupBy)|;
    var item := OrderItem(Last(os), q, n).value;
    TermRead(Last(os), q);
    assert os == Front(os) + [Last(os)];
    if |os| == 1 {
      assert OrderItems(Front(os), q, n) == Some([]);
      assert OrderItems(os, q, n).value == item by { assert [] + [] + item == item; }
      TermsOne(item, TermOf(Last(os)));
      assert TermsOf(os) == [TermOf(Last(os))];
    } else {
      TermsRead(Front(os), q);
      var before := OrderItems(Front(os), q, n).value;
      TermsSnoc(before, item, TermsOf(Front(os)), TermOf(Last(os)));
      Assoc(before, [E(Comma)], item);
      assert TermsOf(os) == TermsOf(Front(os)) + [TermOf(Last(os))];
      CommaIsOrder();
    }
  }

  lemma CommaIsOrder()
    ensures IsOrder(E(Comma))
  {
  }

  /** The order and the limit of a compiled statement, and nothing after them. */
  lemma FinishRead(q: Query, order: seq<Tok>, ps: seq<V>, all: seq<V>)
    requires OrderText(q, |OrNone(q.groupBy)|) == Some(order) && LimitClause(q.limit, ps).ps <= all
    ensures forall o | o in OrdersOf(q) :: Has(q, o.key)
    ensures var n := if q.limit.Some? then Some(|ps| + 1) else None;
            && ReadFinish(OrderClause(order) + LimitClause(q.limit, ps).ts) == Some(Finish(TermsOf(OrdersOf(q)), n))
            && BoundAt(n, q.limit, all)
  {
    hide ReadTerms, IsOrder, Has, OrderText, OrdersOf, TermsOf, ReadFinish, LimitClause, BoundAt;
    OrdersRead(q, order);
    NoTerms(OrdersOf(q));
    LimitRead(q, ps, TermsOf(OrdersOf(q)), all);
    FinishParts(order, LimitClause(q.limit, ps).ts, TermsOf(OrdersOf(q)));
  }

  lemma FinishParts(order: seq<Tok>, limit: seq<Tok>, terms: seq<Term>)
    requires order == [] ==> terms == []
    requires order != [] ==> ReadTerms(order) == Some(terms) && forall t | t in order :: IsOrder(t)
    requires limit == [] || limit[0] == Word(" LIMIT ")
    ensures ReadFinish(OrderClause(order) + limit) == ReadLimit(terms, limit)
  {
    hide ReadTerms, ReadLimit;
    OrderWords();
    var ts := OrderClause(order) + limit;
    if order != [] {
      assert ts == [Word(" ORDER BY ")] + (order + limit);
      assert ts[1..] == order + limit;
      LimitNotOrder();
      SpanIs(order, limit, IsOrder);
      hide IsOrder;
      assert ts[1..1 + |order|] == order && ts[1 + |order|..] == limit;
    } else {
      assert ts == limit;
    }
  }

  lemma NoTerms(os: seq<Ordering>)
    ensures os == [] ==> TermsOf(os) == []
  {
  }

  lemma LimitNotOrder()
    ensures !IsOrder(Word(" LIMIT "))
  {
    OrderWords();
  }

  lemma OrdersRead(q: Query, order: seq<Tok>)
    requires OrderText(q, |OrNone(q.groupBy)|) == Some(order)
    ensures forall o | o in OrdersOf(q) :: Has(q, o.key)
    ensures order == [] <==> OrdersOf(q) == []
    ensures order != [] ==> ReadTerms(order) == Some(TermsOf(OrdersOf(q))) && forall t | t in order :: IsOrder(t)
  {
    hide OrderItems, ReadTerms;
    if OrNone(q.orderBy) != [] {
      TermsRead(OrNone(q.orderBy), q);
    } else if q.bucket.Some? {
      OrderWords();
      var o := Ordering(ByBucket, false);
      assert OrderItem(o, q, |OrNone(q.groupBy)|) == Some(order);
      TermRead(o, q);
      TermsOne(order, TermOf(o));
      assert TermsOf([o]) == [TermOf(o)];
    }
  }

  lemma LimitRead(q: Query, ps: seq<V>, terms: seq<Term>, all: seq<V>)
    requires LimitClause(q.limit, ps).ps <= all
    ensures var n, ts := if q.limit.Some? then Some(|ps| + 1) else None, LimitClause(q.limit, ps).ts;
            && ReadLimit(terms, ts) == Some(Finish(terms, n)) && (ts == [] || ts[0] == Word(" LIMIT "))
            && BoundAt(n, q.limit, all)
  {
    if q.limit.Some? { assert all[|ps|] == LimitClause(q.limit, ps).ps[|ps|]; }
  }

  // ---------------------------------------------------------------------------
  // A statement that is not filled
  // ---------------------------------------------------------------------------

  lemma FinishFollows(q: Query, order: seq<Tok>, ps: seq<V>)
    ensures Follows(OrderClause(order) + LimitClause(q.limit, ps).ts)
  {
    OrderWords();
  }

  /** A statement that is not filled is read as a core that means the query, its order and its limit. */
  lemma SimpleRead(q: Query, scope: Scope, env: Env) returns (core: Core, n: Option<nat>)
    requires Compile(q, scope, env).Some? && !Set(q.fill)
    ensures var d := Compile(q, scope, env).value;
            && ReadStatement(d.ts) == Some(Simple(core, Finish(TermsOf(OrdersOf(q)), n)))
            && CoreMeans(core, q, scope, d.ps, env) && BoundAt(n, q.limit, d.ps) && LimitOk(q.limit)
    ensures forall o | o in OrdersOf(q) :: Has(q, o.key)
  {
    hide MeasuredText, OrderText, CoreMeans, ReadCore, ReadFinish, OrderClause, LimitClause, BoundAt, Has, TermsOf, OrdersOf;
    var d, m := Compile(q, scope, env).value, MeasuredText(q, scope, env).value;
    var order := OrderText(q, |OrNone(q.groupBy)|).value;
    var limit := LimitClause(q.limit, m.ps);
    var end := OrderClause(order) + limit.ts;
    assert d.ts == m.ts + end;
    LimitExtends(q.limit, m.ps);
    FinishFollows(q, order, m.ps);
    FinishRead(q, order, m.ps, d.ps);
    core := CoreReads(q, scope, env, d.ps, end);
    MeasuredHead(q, scope, env, end);
    n := if q.limit.Some? then Some(|m.ps| + 1) else None;
  }

  lemma LimitExtends(limit: Option<int>, ps: seq<V>)
    ensures ps <= LimitClause(limit, ps).ps
  {
  }

  lemma MeasuredHead(q: Query, scope: Scope, env: Env, rest: seq<Tok>)
    requires q.aggregations != [] && MeasuredText(q, scope, env).Some?
    ensures var ts := MeasuredText(q, scope, env).value.ts + rest; ts != [] && ts[0] == Word("SELECT ")
  {
    hide SelectList, GroupClause, Joined;
  }

  lemma SimpleLines(core: Core, q: Query, scope: Scope, all: seq<V>, table: seq<Row>, raws: seq<RawRow>, env: Env)
    requires q.aggregations != [] && !Set(q.fill) && CoreMeans(core, q, scope, all, env) && Measures(core, all, table, env, raws)
    requires Sorted(TermsOf(OrdersOf(q)), raws, env) && forall o | o in OrdersOf(q) :: Has(q, o.key)
    ensures Lines(q, scope, table, env, R.DecodeAll(raws, q, env)) && Arranged(OrdersOf(q), R.DecodeAll(raws, q, env), env)
  {
    hide CoreMeans, Measures, Agrees, Groups, Sorted, Arranged, OrdersOf, TermsOf, R.DecodeAll, LineOf, Picked, Has;
    var rows := Picked(q, scope, table, env);
    var gs := MeasuredAgrees(core, q, scope, all, table, raws, env);
    var lines := seq(|gs|, i requires 0 <= i < |gs| => LineOf(q, gs, gs[i], rows, env));
    AllDecode(raws, lines, q, env);
    SortedMeans(OrdersOf(q), q, raws, lines, env);
  }
}
