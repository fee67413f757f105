/** A compiled statement's measured query, read back from its tokens: each item, the condition and the grouping. */
module SelectProof {
  import opened Sequences
  import opened Filters
  import opened Sql
  import opened Compiler
  import opened Statements
  import opened CompilerProof
  import opened Answers
  import opened Select
  import opened FoldProof
  import RunQueries

  // ---------------------------------------------------------------------------
  // Spans
  // ---------------------------------------------------------------------------

  lemma {:induction false} SpanIs(a: seq<Tok>, b: seq<Tok>, kind: Tok -> bool)
    requires (forall t | t in a :: kind(t)) && (b == [] || !kind(b[0]))
    ensures Span(a + b, kind) == |a|
    decreases |a|
  {
    if a == [] {
      assert a + b == b;
    } else {
      assert (a + b)[1..] == a[1..] + b;
      SpanIs(a[1..], b, kind);
    }
  }

  // ---------------------------------------------------------------------------
  // What each item was emitted for
  // ---------------------------------------------------------------------------

  datatype Spec = SBucket(b: Bucket) | SGroup(field: Field, i: nat) | SValue(a: Aggregation, i: nat) | STotal(a: Aggregation)

  function NameOf(s: Spec): Tok {
    match s case SBucket(_) => AsBucket case SGroup(_, i) => AsGroup(i) case SValue(_, i) => AsValue(i) case STotal(_) => AsTotal
  }

  function GroupSpecs(groups: seq<Field>): seq<Spec> { seq(|groups|, i requires 0 <= i < |groups| => SGroup(groups[i], i)) }

  function ValueSpecs(aggregations: seq<Aggregation>): seq<Spec> {
    seq(|aggregations|, i requires 0 <= i < |aggregations| => SValue(aggregations[i], i))
  }

  function BucketSpecs(b: Option<Bucket>): seq<Spec> { if b.Some? then [SBucket(b.value)] else [] }

  /** What a query wants of each column, in the order of the select list. */
  function Specs(q: Query): seq<Spec>
    requires q.aggregations != []
  {
    BucketSpecs(q.bucket) + GroupSpecs(OrNone(q.groupBy)) + ValueSpecs(q.aggregations) +
    if Set(q.withTotal) then [STotal(q.aggregations[0])] else []
  }

  ghost predicate EmittedAt(item: seq<Tok>, s: Spec, ps: seq<V>, all: seq<V>) {
    match s
    case SBucket(b) => item == BucketText(b, ps).ts + [AsBucket] && BucketText(b, ps).ps <= all
    case SGroup(f, i) => item == Lift(TextExpr(f, ps).ts) + [AsGroup(i)] && TextExpr(f, ps).ps <= all
    case SValue(a, i) =>
      var d := AggregateText(a, ps);
      d.Some? && item == d.value.ts + [AsValue(i)] && d.value.ps <= all
    case STotal(a) =>
      var d := AggregateText(a, ps);
      d.Some? && item == [Word("sum(")] + d.value.ts + [Word(") OVER ()"), AsTotal] && d.value.ps <= all
  }

  ghost predicate Emitted(item: seq<Tok>, s: Spec, all: seq<V>) { exists ps :: EmittedAt(item, s, ps, all) }

  ghost predicate AllEmitted(items: seq<seq<Tok>>, specs: seq<Spec>, all: seq<V>) {
    |items| == |specs| && forall k | 0 <= k < |items| :: Emitted(items[k], specs[k], all)
  }

  lemma EmittedGrows(items: seq<seq<Tok>>, specs: seq<Spec>, all: seq<V>, more: seq<V>)
    requires AllEmitted(items, specs, all) && all <= more
    ensures AllEmitted(items, specs, more)
  {
    hide BucketText, TextExpr, AggregateText;
    forall k | 0 <= k < |items|
      ensures Emitted(items[k], specs[k], more)
    {
      var ps :| EmittedAt(items[k], specs[k], ps, all);
      assert EmittedAt(items[k], specs[k], ps, more);
    }
  }

  lemma EmittedNext(items: seq<seq<Tok>>, specs: seq<Spec>, all: seq<V>, item: seq<Tok>, s: Spec, ps: seq<V>, more: seq<V>)
    requires AllEmitted(items, specs, all) && all <= more && EmittedAt(item, s, ps, more)
    ensures AllEmitted(items + [item], specs + [s], more)
  {
    EmittedGrows(items, specs, all, more);
    hide EmittedAt;
  }

  lemma {:induction false} GroupsEmitted(s: Selected, groups: seq<Field>, specs: seq<Spec>)
    requires AllEmitted(s.items, specs, s.ps) && PushGroups(s, groups).Some?
    ensures var r := PushGroups(s, groups).value; AllEmitted(r.items, specs + GroupSpecs(groups), r.ps)
    decreases |groups|
  {
    if groups != [] {
      hide TextExpr, FieldOk, AllEmitted;
      GroupsEmitted(s, Front(groups), specs);
      var b, f, n := PushGroups(s, Front(groups)).value, Last(groups), |groups| - 1;
      var e := TextExpr(f, b.ps);
      assert GroupSpecs(groups) == GroupSpecs(Front(groups)) + [SGroup(f, n)];
      assert specs + GroupSpecs(groups) == specs + GroupSpecs(Front(groups)) + [SGroup(f, n)];
      TextGrows(f, b.ps);
      EmittedNext(b.items, specs + GroupSpecs(Front(groups)), b.ps, Lift(e.ts) + [AsGroup(n)], SGroup(f, n), b.ps, e.ps);
    } else {
      assert specs + GroupSpecs(groups) == specs;
    }
  }

  lemma TextGrows(f: Field, ps: seq<V>)
    ensures ps <= TextExpr(f, ps).ps
  {
  }

  lemma {:induction false} ValuesEmitted(s: Selected, aggregations: seq<Aggregation>, specs: seq<Spec>)
    requires AllEmitted(s.items, specs, s.ps) && PushValues(s, aggregations).Some?
    ensures var r := PushValues(s, aggregations).value; AllEmitted(r.items, specs + ValueSpecs(aggregations), r.ps)
    decreases |aggregations|
  {
    if aggregations != [] {
      hide AggregateText, AllEmitted;
      ValuesEmitted(s, Front(aggregations), specs);
      var b, a, n := PushValues(s, Front(aggregations)).value, Last(aggregations), |aggregations| - 1;
      var d := AggregateText(a, b.ps).value;
      assert ValueSpecs(aggregations) == ValueSpecs(Front(aggregations)) + [SValue(a, n)];
      assert specs + ValueSpecs(aggregations) == specs + ValueSpecs(Front(aggregations)) + [SValue(a, n)];
      EmittedNext(b.items, specs + ValueSpecs(Front(aggregations)), b.ps, d.ts + [AsValue(n)], SValue(a, n), b.ps, d.ps);
    } else {
      assert specs + ValueSpecs(aggregations) == specs;
    }
  }

  lemma SelectEmitted(q: Query, ps: seq<V>)
    requires q.aggregations != [] && SelectList(q, ps).Some?
    ensures var sel := SelectList(q, ps).value; AllEmitted(sel.items, Specs(q), sel.ps)
  {
    hide PushGroups, PushValues, AggregateText, BucketText, AllEmitted, GroupSpecs, ValueSpecs;
    var s := Selected([], ps);
    var b := PushBucket(s, q.bucket).value;
    NoneEmitted(ps);
    if q.bucket.Some? {
      var d := BucketText(q.bucket.value, ps);
      EmittedNext([], [], ps, d.ts + [AsBucket], SBucket(q.bucket.value), ps, d.ps);
      assert [] + [d.ts + [AsBucket]] == [d.ts + [AsBucket]] && [] + [SBucket(q.bucket.value)] == BucketSpecs(q.bucket);
    }
    GroupsEmitted(b, OrNone(q.groupBy), BucketSpecs(q.bucket));
    var g := PushGroups(b, OrNone(q.groupBy)).value;
    var specs := BucketSpecs(q.bucket) + GroupSpecs(OrNone(q.groupBy));
    ValuesEmitted(g, q.aggregations, specs);
    var v := PushValues(g, q.aggregations).value;
    if Set(q.withTotal) {
      var a := q.aggregations[0];
      var d := AggregateText(a, v.ps).value;
      EmittedNext(v.items, specs + ValueSpecs(q.aggregations), v.ps,
                  [Word("sum(")] + d.ts + [Word(") OVER ()"), AsTotal], STotal(a), v.ps, d.ps);
    } else {
      assert specs + ValueSpecs(q.aggregations) + [] == specs + ValueSpecs(q.aggregations);
    }
  }

  lemma NoneEmitted(ps: seq<V>)
    ensures AllEmitted([], [], ps)
  {
  }

  // ---------------------------------------------------------------------------
  // One item, read
  // ---------------------------------------------------------------------------

  /** What is read has the meaning of what is wanted, on every row and over all rows there may be. */
  ghost predicate Means(it: Item, s: Spec, all: seq<V>, env: Env) {
    && it.name == NameOf(s)
    && match s
       case SBucket(b) => it.out.Truncated? && forall row :: RowV(it.out, all, row, env) == VTime(StartOf(b, row.time, env))
       case SGroup(f, _) => it.out.Plainly? && forall row :: RowV(it.out, all, row, env) == OfText(FieldText(f, row, env))
       case SValue(a, _) => it.out.Grouped? && forall rows :: FoldV(it.out.f, all, rows, env) == OfNumber(ValueOf(a, rows, env))
       case STotal(a) => it.out.Over? && forall rows :: FoldV(it.out.f, all, rows, env) == OfNumber(ValueOf(a, rows, env))
  }

  /** An output, and then its name. */
  ghost predicate Readable(item: seq<Tok>) {
    item != [] && (forall t | t in Front(item) :: !Alias(t)) && Alias(Last(item)) && ReadOutput(Front(item)).Some?
  }

  function AsItem(item: seq<Tok>): Item
    requires Readable(item)
  {
    Item(ReadOutput(Front(item)).value, Last(item))
  }

  lemma ItemMeans(item: seq<Tok>, s: Spec, all: seq<V>, env: Env)
    requires Emitted(item, s, all)
    ensures Readable(item) && Means(AsItem(item), s, all, env)
  {
    hide ReadOutput, BucketText, AggregateText, TextExpr, TextTree, FoldOf, RowV, FoldV, ValueOf, FieldText, StartOf;
    var ps :| EmittedAt(item, s, ps, all);
    match s
    case SBucket(b) =>
      assert Front(item) == BucketText(b, ps).ts;
      BucketRead(b, ps);
      forall row
        ensures RowV(AsItem(item).out, all, row, env) == VTime(StartOf(b, row.time, env))
      {
        BucketMeans(b, ps, all, row, env);
      }
    case SGroup(f, _) =>
      assert Front(item) == Lift(TextExpr(f, ps).ts);
      GroupRead(f, ps);
      forall row
        ensures RowV(AsItem(item).out, all, row, env) == OfText(FieldText(f, row, env))
      {
        PlainReads(f, ps, all, row, env);
      }
    case SValue(a, _) =>
      assert Front(item) == AggregateText(a, ps).value.ts;
      ValueRead(a, ps);
      forall rows
        ensures FoldV(AsItem(item).out.f, all, rows, env) == OfNumber(ValueOf(a, rows, env))
      {
        FoldMeans(a, ps, all, rows, env);
      }
    case STotal(a) =>
      var d := AggregateText(a, ps).value.ts;
      assert Front(item) == [Word("sum(")] + d + [Word(") OVER ()")];
      TotalRead(a, ps);
      forall rows
        ensures FoldV(AsItem(item).out.f, all, rows, env) == OfNumber(ValueOf(a, rows, env))
      {
        FoldMeans(a, ps, all, rows, env);
      }
  }

  lemma PlainReads(f: Field, ps: seq<V>, all: seq<V>, row: Row, env: Env)
    requires TextExpr(f, ps).ps <= all
    ensures RowV(Plainly(TextTree(f, |ps|)), all, row, env) == OfText(FieldText(f, row, env))
  {
    hide Eval;
    TextReads(f, ps, all, row, env);
  }

  // ---------------------------------------------------------------------------
  // All of them
  // ---------------------------------------------------------------------------

  ghost predicate AllReadable(items: seq<seq<Tok>>) { forall k | 0 <= k < |items| :: Readable(items[k]) }

  ghost function AsItems(items: seq<seq<Tok>>): seq<Item>
    requires AllReadable(items)
  {
    seq(|items|, k requires 0 <= k < |items| => AsItem(items[k]))
  }

  lemma {:induction false} JoinedCons(items: seq<seq<Tok>>)
    requires |items| > 1
    ensures Joined(items) == items[0] + [E(Comma)] + Joined(items[1..])
    decreases |items|
  {
    if |items| > 2 {
      var front := Front(items);
      JoinedCons(front);
      assert front[1..] == Front(items[1..]) && Last(items[1..]) == Last(items);
      var head := items[0] + [E(Comma)];
      Assoc(head, Joined(front[1..]), [E(Comma)]);
      Assoc(head, Joined(front[1..]) + [E(Comma)], Last(items));
    } else {
      assert Front(items) == [items[0]] && items[1..] == [items[1]];
    }
  }

  lemma {:induction false} ItemsRead(items: seq<seq<Tok>>, rest: seq<Tok>)
    requires items != [] && AllReadable(items) && (rest == [] || rest[0] != E(Comma))
    ensures ReadItems(Joined(items) + rest) == Some((AsItems(items), rest))
    decreases |items|
  {
    if |items| == 1 {
      OneRead(items[0], rest);
      assert AsItems(items) == [AsItem(items[0])];
    } else {
      ItemsRead(items[1..], rest);
      ItemsStep(items, rest);
    }
  }

  lemma ItemsStep(items: seq<seq<Tok>>, rest: seq<Tok>)
    requires |items| > 1 && AllReadable(items) && ReadItems(Joined(items[1..]) + rest) == Some((AsItems(items[1..]), rest))
    ensures ReadItems(Joined(items) + rest) == Some((AsItems(items), rest))
  {
    hide Joined, ReadItems, Readable, ReadOutput;
    var item, more := items[0], Joined(items[1..]) + rest;
    JoinedCons(items);
    OneRead(item, [E(Comma)] + more);
    Assoc(item + [E(Comma)], Joined(items[1..]), rest);
    Assoc(item, [E(Comma)], more);
    assert ([E(Comma)] + more)[1..] == more;
    assert AsItems(items) == [AsItem(item)] + AsItems(items[1..]);
  }

  /** The first of a list, and what is left to read. */
  lemma OneRead(item: seq<Tok>, rest: seq<Tok>)
    requires Readable(item)
    ensures var ts := item + rest;
            && (rest == [] || rest[0] != E(Comma) ==> ReadItems(ts) == Some(([AsItem(item)], rest)))
            && (rest != [] && rest[0] == E(Comma) ==>
                  ReadItems(ts) == match ReadItems(rest[1..])
                                   case None => None
                                   case Some((items, after)) => Some(([AsItem(item)] + items, after)))
  {
    hide ReadOutput;
    var ts, d := item + rest, Front(item);
    assert ts == d + ([Last(item)] + rest);
    SpanIs(d, [Last(item)] + rest, Unnamed);
    assert ts[..|d|] == d && ts[|d|] == Last(item) && ts[|d| + 1..] == rest;
  }

  // ---------------------------------------------------------------------------
  // Ordinals
  // ---------------------------------------------------------------------------

  function UpTo(n: nat): seq<nat> { seq(n, i requires 0 <= i < n => i + 1) }

  lemma {:induction false} OrdinalsRead(n: nat)
    requires n > 0
    ensures ReadOrdinals(Ordinals(n)) == Some(UpTo(n)) && forall t | t in Ordinals(n) :: IsOrdinal(t)
    decreases n
  {
    var ts := Ordinals(n);
    if n == 1 {
      assert Ordinals(0) == [];
      assert ts == [Ordinal(1)] && UpTo(1) == [1];
    } else {
      OrdinalsRead(n - 1);
      assert ts == Ordinals(n - 1) + [E(Comma)] + [Ordinal(n)];
      OrdinalsSome(n - 1);
      assert ts[..|ts| - 2] == Ordinals(n - 1) && ts[|ts| - 2] == E(Comma) && Last(ts) == Ordinal(n);
      assert UpTo(n) == UpTo(n - 1) + [n];
    }
  }

  lemma OrdinalsSome(n: nat)
    requires n > 0
    ensures Ordinals(n) != []
  {
  }

  // ---------------------------------------------------------------------------
  // The measured query
  // ---------------------------------------------------------------------------

  /** How many columns a query groups by. */
  function GroupCount(q: Query): nat { (if q.bucket.Some? then 1 else 0) + |OrNone(q.groupBy)| }

  /**
   * A measured query that has the meaning of q: item by item what q wants of each
   * column, grouped by the bucket and the groups, over the rows q is about.
   */
  ghost predicate CoreMeans(c: Core, q: Query, scope: Scope, all: seq<V>, env: Env)
    requires q.aggregations != []
  {
    && |c.items| == |Specs(q)| && (forall k | 0 <= k < |c.items| :: Means(c.items[k], Specs(q)[k], all, env))
    && c.group == UpTo(GroupCount(q))
    && forall row :: Eval(c.cond, all, row, env) == VBool(true) <==> Chosen(q, scope, row, env)
  }

  lemma WhereRead(q: Query, scope: Scope, selected: seq<V>, all: seq<V>, env: Env) returns (t: Expr)
    requires Where(scope, selected, q.filter, env).Some? && Where(scope, selected, q.filter, env).value.ps <= all
    ensures ReadExpr(Lift(Where(scope, selected, q.filter, env).value.ts)) == Some(t)
    ensures forall row :: Eval(t, all, row, env) == VBool(true) <==> Chosen(q, scope, row, env)
  {
    hide Meaning, Parse, Eval, InScope, CompileFilter;
    var w := Where(scope, selected, q.filter, env).value;
    UnliftLift(w.ts);
    if q.filter.Some? {
      t := WhereMeans(scope, selected, q.filter.value, env);
      forall row
        ensures Eval(t, all, row, env) == VBool(true) <==> Chosen(q, scope, row, env)
      {
        assert Eval(t, all, row, env) == OfTri(And3(Truth(InScope(scope, row)), Meaning(q.filter.value, row, env)));
      }
    } else {
      t := ScopeTree();
      ScopeBuilt(scope);
      Whole(t, ScopeExpr(scope));
      forall row
        ensures Eval(t, all, row, env) == VBool(true) <==> Chosen(q, scope, row, env)
      {
        ScopeReads(scope, all, row, env);
      }
    }
  }

  /** What may follow a measured query: nothing, or a word that is not its own. */
  predicate Follows(rest: seq<Tok>) { rest == [] || (rest[0].Word? && rest[0] != Word(" GROUP BY ")) }

  lemma GroupingRead(items: seq<Item>, t: Expr, w: seq<Token>, q: Query, rest: seq<Tok>)
    requires ReadExpr(Lift(w)) == Some(t) && Follows(rest)
    ensures ReadWhere(items, Lift(w) + (GroupClause(q) + rest)) == Some((Core(items, t, UpTo(GroupCount(q))), rest))
  {
    hide ReadExpr, ReadOrdinals, ReadWhere, Span, GroupClause;
    var after := GroupClause(q) + rest;
    var ts := Lift(w) + after;
    GroupingFollows(q, rest);
    SpanIs(Lift(w), after, IsE);
    assert ts[..|w|] == Lift(w) && ts[|w|..] == after;
    WhereParts(items, t, ts, |w|);
    GroupingParts(items, t, q, rest);
  }

  lemma GroupingFollows(q: Query, rest: seq<Tok>)
    requires Follows(rest)
    ensures var after := GroupClause(q) + rest; after == [] || after[0].Word?
  {
  }

  /** What is read of a clause, after its condition. */
  function ReadGroup(items: seq<Item>, cond: Expr, rest: seq<Tok>): Option<(Core, seq<Tok>)> {
    if rest == [] || rest[0] != Word(" GROUP BY ") then Some((Core(items, cond, []), rest))
    else
      var m := Span(rest[1..], IsOrdinal);
      match ReadOrdinals(rest[1..1 + m])
      case None => None
      case Some(group) => Some((Core(items, cond, group), rest[1 + m..]))
  }

  lemma WhereParts(items: seq<Item>, t: Expr, ts: seq<Tok>, n: nat)
    requires n == Span(ts, IsE) && ReadExpr(ts[..n]) == Some(t)
    ensures ReadWhere(items, ts) == ReadGroup(items, t, ts[n..])
  {
    hide ReadExpr, ReadOrdinals;
  }

  lemma GroupingParts(items: seq<Item>, t: Expr, q: Query, rest: seq<Tok>)
    requires Follows(rest)
    ensures ReadGroup(items, t, GroupClause(q) + rest) == Some((Core(items, t, UpTo(GroupCount(q))), rest))
  {
    hide Ordinals, ReadOrdinals, Span;
    var n, after := GroupCount(q), GroupClause(q) + rest;
    if n > 0 {
      assert after == [Word(" GROUP BY ")] + (Ordinals(n) + rest);
      assert after[1..] == Ordinals(n) + rest;
      OrdinalsRead(n);
      SpanIs(Ordinals(n), rest, IsOrdinal);
      assert after[1..1 + |Ordinals(n)|] == Ordinals(n) && after[1 + |Ordinals(n)|..] == rest;
    } else {
      assert after == rest && UpTo(0) == [];
    }
  }

  lemma AllMean(items: seq<seq<Tok>>, specs: seq<Spec>, all: seq<V>, env: Env)
    requires AllEmitted(items, specs, all)
    ensures AllReadable(items) && forall k | 0 <= k < |items| :: Means(AsItems(items)[k], specs[k], all, env)
  {
    hide Emitted, Readable, Means;
    forall k | 0 <= k < |items|
      ensures Readable(items[k]) && Means(AsItem(items[k]), specs[k], all, env)
    {
      ItemMeans(items[k], specs[k], all, env);
    }
  }

  /** The select list and the clause, one after the other. */
  lemma PartsRead(items: seq<seq<Tok>>, w: seq<Token>, q: Query, t: Expr, rest: seq<Tok>)
    requires items != [] && AllReadable(items) && ReadExpr(Lift(w)) == Some(t) && Follows(rest)
    ensures var ts := [Word("SELECT ")] + Joined(items) + [RunQueries.FROM] + Lift(w) + GroupClause(q);
            ReadCore(ts + rest) == Some((Core(AsItems(items), t, UpTo(GroupCount(q))), rest))
  {
    hide ReadItems, ReadWhere, Readable, Joined, GroupClause, ReadExpr;
    var ts := [Word("SELECT ")] + Joined(items) + [RunQueries.FROM] + Lift(w) + GroupClause(q) + rest;
    var tail := Lift(w) + (GroupClause(q) + rest);
    assert ts == [Word("SELECT ")] + (Joined(items) + ([RunQueries.FROM] + tail));
    assert ts[1..] == Joined(items) + ([RunQueries.FROM] + tail) && ([RunQueries.FROM] + tail)[1..] == tail;
    ItemsRead(items, [RunQueries.FROM] + tail);
    GroupingRead(AsItems(items), t, w, q, rest);
  }

  lemma CoreReads(q: Query, scope: Scope, env: Env, all: seq<V>, rest: seq<Tok>) returns (core: Core)
    requires q.aggregations != [] && MeasuredText(q, scope, env).Some? && MeasuredText(q, scope, env).value.ps <= all
    requires Follows(rest)
    ensures ReadCore(MeasuredText(q, scope, env).value.ts + rest) == Some((core, rest))
    ensures CoreMeans(core, q, scope, all, env)
  {
    hide SelectList, Where, GroupClause, Joined, ReadCore, AllEmitted, Readable, Specs, Means, Chosen, ReadExpr, Eval;
    var s := ScopeExpr(scope);
    var sel := SelectList(q, s.ps).value;
    var w := Where(scope, sel.ps[|s.ps|..], q.filter, env).value;
    SelectEmitted(q, s.ps);
    RunQueries.WhereExtends(scope, sel.ps[|s.ps|..], q.filter, env);
    assert s.ps + sel.ps[|s.ps|..] == sel.ps;
    SizesAgree(sel.items, Specs(q), sel.ps);
    EmittedGrows(sel.items, Specs(q), sel.ps, all);
    AllMean(sel.items, Specs(q), all, env);
    var t := WhereRead(q, scope, sel.ps[|s.ps|..], all, env);
    SpecsSome(q);
    PartsRead(sel.items, w.ts, q, t, rest);
    core := Core(AsItems(sel.items), t, UpTo(GroupCount(q)));
  }

  lemma SizesAgree(items: seq<seq<Tok>>, specs: seq<Spec>, all: seq<V>)
    requires AllEmitted(items, specs, all)
    ensures |items| == |specs|
  {
  }

  lemma SpecsSome(q: Query)
    requires q.aggregations != []
    ensures |Specs(q)| > 0
  {
  }
}
