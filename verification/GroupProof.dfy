/** What a database measures for a core that means a query is, line by line, what the query asks for. */
module GroupProof {
  import opened Sequences
  import opened Filters
  import opened Sql
  import opened Statements
  import opened Answers
  import opened Select
  import opened FoldProof
  import opened SelectProof
  import A = Aggregates
  import R = RunQueries

  // ---------------------------------------------------------------------------
  // The rows
  // ---------------------------------------------------------------------------

  lemma {:induction false} KeptArePicked(c: Core, q: Query, scope: Scope, all: seq<V>, table: seq<Row>, env: Env)
    requires forall row :: Eval(c.cond, all, row, env) == VBool(true) <==> Chosen(q, scope, row, env)
    ensures Kept(c.cond, all, table, env) == Picked(q, scope, table, env)
    decreases |table|
  {
    if table != [] {
      hide Eval, Chosen;
      KeptArePicked(c, q, scope, all, Front(table), env);
    }
  }

  // ---------------------------------------------------------------------------
  // The keys
  // ---------------------------------------------------------------------------

  /** A group of the columns q groups by. */
  predicate Shaped(q: Query, g: Group) { (g.bucket.Some? <==> q.bucket.Some?) && |g.texts| == |OrNone(q.groupBy)| }

  function TextKeys(texts: seq<Option<string>>): seq<V> { seq(|texts|, i requires 0 <= i < |texts| => OfText(texts[i])) }

  /** A group as the database has it. */
  function KeyOf(g: Group): seq<V> { (if g.bucket.Some? then [VTime(g.bucket.value)] else []) + TextKeys(g.texts) }

  lemma KeyDecides(g: Group, h: Group)
    requires (g.bucket.Some? <==> h.bucket.Some?) && KeyOf(g) == KeyOf(h)
    ensures g == h
  {
    var n := if g.bucket.Some? then 1 else 0;
    assert KeyOf(g)[n..] == TextKeys(g.texts) && KeyOf(h)[n..] == TextKeys(h.texts);
    if g.bucket.Some? { assert KeyOf(g)[0] == KeyOf(h)[0]; }
    assert |g.texts| == |h.texts|;
    forall i | 0 <= i < |g.texts|
      ensures g.texts[i] == h.texts[i]
    {
      assert TextKeys(g.texts)[i] == TextKeys(h.texts)[i];
    }
    assert g.texts == h.texts;
  }

  /** Where each column of an answer stands in the select list. */
  lemma SpecAt(q: Query)
    requires q.aggregations != []
    ensures var b, g, v := if q.bucket.Some? then 1 else 0, |OrNone(q.groupBy)|, |q.aggregations|;
            && |Specs(q)| == b + g + v + (if Set(q.withTotal) then 1 else 0)
            && (q.bucket.Some? ==> Specs(q)[0] == SBucket(q.bucket.value))
            && (forall i | 0 <= i < g :: Specs(q)[b + i] == SGroup(OrNone(q.groupBy)[i], i))
            && (forall i | 0 <= i < v :: Specs(q)[b + g + i] == SValue(q.aggregations[i], i))
            && (Set(q.withTotal) ==> Specs(q)[b + g + v] == STotal(q.aggregations[0]))
  {
  }

  lemma GroupSize(c: Core, q: Query, scope: Scope, all: seq<V>, env: Env)
    requires q.aggregations != [] && CoreMeans(c, q, scope, all, env)
    ensures c.group == UpTo(GroupCount(q)) && (c.group == [] <==> q.bucket.None? && OrNone(q.groupBy) == [])
  {
  }

  /** A row is grouped under its own group. */
  lemma KeyMeans(c: Core, q: Query, scope: Scope, all: seq<V>, row: Row, env: Env)
    requires q.aggregations != [] && CoreMeans(c, q, scope, all, env)
    ensures KeyV(c, all, row, env) == KeyOf(GroupOf(q, row, env))
  {
    hide CoreMeans, RowV, KeyOf, GroupOf, Specs;
    var key, g := KeyV(c, all, row, env), GroupOf(q, row, env);
    GroupSize(c, q, scope, all, env);
    KeySize(q, row, env);
    forall k | 0 <= k < |key|
      ensures key[k] == KeyOf(g)[k]
    {
      KeyColumnMeans(c, q, scope, all, row, k, env);
    }
  }

  lemma KeySize(q: Query, row: Row, env: Env)
    ensures |KeyOf(GroupOf(q, row, env))| == GroupCount(q)
  {
  }

  lemma KeyColumnMeans(c: Core, q: Query, scope: Scope, all: seq<V>, row: Row, k: nat, env: Env)
    requires q.aggregations != [] && CoreMeans(c, q, scope, all, env) && k < GroupCount(q)
    ensures k < |c.items| && |KeyOf(GroupOf(q, row, env))| == GroupCount(q)
    ensures RowV(c.items[k].out, all, row, env) == KeyOf(GroupOf(q, row, env))[k]
  {
    hide Chosen, RowV, FoldV, StartOf, FieldText, Specs, ValueOf;
    SpecAt(q);
    var b := if q.bucket.Some? then 1 else 0;
    assert Means(c.items[k], Specs(q)[k], all, env);
    if k >= b { assert Specs(q)[b + (k - b)] == SGroup(OrNone(q.groupBy)[k - b], k - b); }
  }

  lemma {:induction false} MembersMean(c: Core, q: Query, scope: Scope, all: seq<V>, rows: seq<Row>, g: Group, env: Env)
    requires q.aggregations != [] && CoreMeans(c, q, scope, all, env) && Shaped(q, g)
    ensures MembersV(c, all, rows, KeyOf(g), env) == Members(q, rows, g, env)
    decreases |rows|
  {
    if rows != [] {
      hide CoreMeans, KeyV, KeyOf;
      MembersMean(c, q, scope, all, Front(rows), g, env);
      KeyMeans(c, q, scope, all, Last(rows), env);
      if KeyOf(GroupOf(q, Last(rows), env)) == KeyOf(g) { KeyDecides(GroupOf(q, Last(rows), env), g); }
    }
  }

  // ---------------------------------------------------------------------------
  // The groups
  // ---------------------------------------------------------------------------

  function TextOf(v: V): Option<string> { if v.VText? then Some(v.s) else None }

  /** The group a key is of. */
  function GroupFrom(q: Query, key: seq<V>): Group {
    var b := if q.bucket.Some? then 1 else 0;
    if |key| != b + |OrNone(q.groupBy)| || (b == 1 && !key[0].VTime?) then Group(None, [])
    else
      Group(if b == 1 then Some(key[0].t) else None,
            seq(|OrNone(q.groupBy)|, i requires 0 <= i < |OrNone(q.groupBy)| => TextOf(key[b + i])))
  }

  lemma FromKey(q: Query, g: Group)
    requires Shaped(q, g)
    ensures GroupFrom(q, KeyOf(g)) == g
  {
    var key, b := KeyOf(g), if q.bucket.Some? then 1 else 0;
    assert |key| == b + |g.texts| && (b == 1 ==> key[0] == VTime(g.bucket.value));
    var r := GroupFrom(q, key);
    forall i | 0 <= i < |g.texts|
      ensures r.texts[i] == g.texts[i]
    {
      assert key[b + i] == OfText(g.texts[i]);
      assert r.texts[i] == TextOf(key[b + i]);
    }
    assert r.texts == g.texts;
  }

  function GroupsFrom(q: Query, keys: seq<seq<V>>): seq<Group> {
    seq(|keys|, i requires 0 <= i < |keys| => GroupFrom(q, keys[i]))
  }

  /** Each group stands for its key. */
  ghost predicate Stand(q: Query, keys: seq<seq<V>>, gs: seq<Group>) {
    |keys| == |gs| && forall i | 0 <= i < |gs| :: Shaped(q, gs[i]) && keys[i] == KeyOf(gs[i])
  }

  lemma GroupShaped(q: Query, row: Row, env: Env)
    ensures Shaped(q, GroupOf(q, row, env))
  {
  }

  lemma KeysStand(c: Core, q: Query, scope: Scope, all: seq<V>, rows: seq<Row>, keys: seq<seq<V>>, env: Env)
    requires q.aggregations != [] && CoreMeans(c, q, scope, all, env) && KeysV(keys, c, all, rows, env)
    ensures Stand(q, keys, GroupsFrom(q, keys))
  {
    hide CoreMeans, GroupFrom, KeyV, KeyOf, GroupOf;
    var gs := GroupsFrom(q, keys);
    GroupSize(c, q, scope, all, env);
    forall i | 0 <= i < |gs|
      ensures Shaped(q, gs[i]) && keys[i] == KeyOf(gs[i])
    {
      if c.group == [] {
        NoKey(q);
      } else {
        assert keys[i] in keys;
        var row :| row in rows && KeyV(c, all, row, env) == keys[i];
        KeyMeans(c, q, scope, all, row, env);
        GroupShaped(q, row, env);
        FromKey(q, GroupOf(q, row, env));
      }
    }
  }

  lemma NoKey(q: Query)
    requires q.bucket.None? && OrNone(q.groupBy) == []
    ensures GroupFrom(q, []) == Group(None, []) && KeyOf(Group(None, [])) == [] && Shaped(q, Group(None, []))
  {
  }

  /** The keys are those of the groups there are. */
  lemma GroupsMean(c: Core, q: Query, scope: Scope, all: seq<V>, rows: seq<Row>, keys: seq<seq<V>>, env: Env)
    requires q.aggregations != [] && CoreMeans(c, q, scope, all, env) && KeysV(keys, c, all, rows, env)
    ensures Groups(GroupsFrom(q, keys), q, rows, env)
  {
    hide CoreMeans, KeyV, KeyOf, GroupOf, GroupFrom, Shaped;
    KeysStand(c, q, scope, all, rows, keys, env);
    GroupSize(c, q, scope, all, env);
    var gs := GroupsFrom(q, keys);
    if c.group == [] {
      NoKey(q);
      assert gs == [Group(None, [])];
    } else {
      forall i, j | 0 <= i < j < |gs|
        ensures gs[i] != gs[j]
      {
        assert keys[i] != keys[j];
      }
      forall g
        ensures g in gs <==> exists row :: row in rows && GroupOf(q, row, env) == g
      {
        if g in gs {
          var i :| 0 <= i < |gs| && gs[i] == g;
          assert keys[i] in keys;
          var row :| row in rows && KeyV(c, all, row, env) == keys[i];
          KeyMeans(c, q, scope, all, row, env);
          SameShape(q, row, gs[i], env);
          KeyDecides(GroupOf(q, row, env), gs[i]);
        }
        if row :| row in rows && GroupOf(q, row, env) == g {
          assert KeyV(c, all, row, env) in keys;
          var i :| 0 <= i < |keys| && keys[i] == KeyV(c, all, row, env);
          KeyMeans(c, q, scope, all, row, env);
          SameShape(q, row, gs[i], env);
          KeyDecides(g, gs[i]);
        }
      }
    }
  }

  lemma SameShape(q: Query, row: Row, g: Group, env: Env)
    requires Shaped(q, g)
    ensures GroupOf(q, row, env).bucket.Some? <==> g.bucket.Some?
  {
  }

  // ---------------------------------------------------------------------------
  // The lines
  // ---------------------------------------------------------------------------

  /** A group that is there has a row, and the row is in it. */
  lemma {:induction false} MembersAreIn(q: Query, rows: seq<Row>, g: Group, env: Env)
    ensures forall row | row in Members(q, rows, g, env) :: GroupOf(q, row, env) == g
    ensures (exists row :: row in rows && GroupOf(q, row, env) == g) ==> Members(q, rows, g, env) != []
    decreases |rows|
  {
    if rows != [] {
      hide GroupOf;
      MembersAreIn(q, Front(rows), g, env);
      assert rows == Front(rows) + [Last(rows)];
    }
  }

  /** The numbers of a fold over every group are those of the aggregation. */
  lemma {:induction false} OverMeans(c: Core, q: Query, scope: Scope, all: seq<V>, f: Fold, keys: seq<seq<V>>,
                                     gs: seq<Group>, rows: seq<Row>, env: Env)
    requires q.aggregations != [] && CoreMeans(c, q, scope, all, env) && Stand(q, keys, gs)
    requires forall some :: FoldV(f, all, some, env) == OfNumber(ValueOf(q.aggregations[0], some, env))
    ensures OverAll(f, c, all, keys, rows, env) == Some(TotalValues(q, gs, rows, env))
    decreases |keys|
  {
    hide CoreMeans, FoldV, ValueOf, KeyOf, Shaped, Members, MembersV;
    if keys != [] {
      OverMeans(c, q, scope, all, f, Front(keys), Front(gs), rows, env);
      MembersMean(c, q, scope, all, rows, Last(gs), env);
      assert TotalValues(q, Front(gs), rows, env) + [] == TotalValues(q, Front(gs), rows, env);
    }
  }

  /** What a column is for one group. */
  function Wanted(s: Spec, q: Query, gs: seq<Group>, g: Group, rows: seq<Row>, env: Env): V
    requires q.aggregations != []
  {
    match s
    case SBucket(_) => if g.bucket.Some? then VTime(g.bucket.value) else VNull
    case SGroup(_, i) => if i < |g.texts| then OfText(g.texts[i]) else VNull
    case SValue(a, _) => OfNumber(ValueOf(a, Members(q, rows, g, env), env))
    case STotal(_) => OfNumber(Summed(TotalValues(q, gs, rows, env)))
  }

  lemma ItemIs(c: Core, q: Query, scope: Scope, all: seq<V>, keys: seq<seq<V>>, gs: seq<Group>, i: nat, k: nat,
               rows: seq<Row>, env: Env)
    requires q.aggregations != [] && CoreMeans(c, q, scope, all, env) && KeysV(keys, c, all, rows, env)
    requires Stand(q, keys, gs) && Groups(gs, q, rows, env) && i < |gs| && k < |c.items|
    ensures ItemV(c, k, all, keys, keys[i], rows, env) == Wanted(Specs(q)[k], q, gs, gs[i], rows, env)
  {
    hide KeysV, KeyOf, FoldV, ValueOf, RowV, KeyV, TotalValues, OverAll, Chosen, Specs;
    var g := gs[i];
    SpecAt(q);
    ColumnPlace(q, k);
    assert Means(c.items[k], Specs(q)[k], all, env);
    MembersMean(c, q, scope, all, rows, g, env);
    match Specs(q)[k]
    case SValue(_, _) =>
    case STotal(_) =>
      OverMeans(c, q, scope, all, c.items[k].out.f, keys, gs, rows, env);
      SummedIs(TotalValues(q, gs, rows, env));
    case _ =>
      InGroups(q, gs, i, rows, env);
      KeyColumn(c, q, scope, all, g, k, rows, env);
  }

  lemma SummedIs(xs: seq<real>)
    ensures OfNumber(Summed(xs)) == if xs == [] then VNull else VNum(A.Sum(xs))
  {
  }

  lemma InGroups(q: Query, gs: seq<Group>, i: nat, rows: seq<Row>, env: Env)
    requires Groups(gs, q, rows, env) && i < |gs| && GroupCount(q) > 0
    ensures exists row :: row in rows && GroupOf(q, row, env) == gs[i]
  {
    assert gs[i] in gs;
  }

  /** A column of the key is the same on every row of the group, and the first has it. */
  lemma KeyColumn(c: Core, q: Query, scope: Scope, all: seq<V>, g: Group, k: nat, rows: seq<Row>, env: Env)
    requires q.aggregations != [] && CoreMeans(c, q, scope, all, env) && k < |c.items|
    requires exists row :: row in rows && GroupOf(q, row, env) == g
    requires Specs(q)[k].SBucket? || Specs(q)[k].SGroup?
    ensures k + 1 in c.group
    ensures var mine := Members(q, rows, g, env);
            && mine != []
            && RowV(c.items[k].out, all, mine[0], env) ==
               match Specs(q)[k]
               case SBucket(_) => (if g.bucket.Some? then VTime(g.bucket.value) else VNull)
               case SGroup(_, i) => (if i < |g.texts| then OfText(g.texts[i]) else VNull)
               case _ => VError
  {
    hide RowV, FoldV, ValueOf, Chosen, Specs;
    SpecAt(q);
    MembersAreIn(q, rows, g, env);
    var first := Members(q, rows, g, env)[0];
    assert first in Members(q, rows, g, env);
    assert Means(c.items[k], Specs(q)[k], all, env);
    ColumnPlace(q, k);
    assert c.group[k] == k + 1;
  }

  /** The columns of the key come first, each where its number says. */
  lemma ColumnPlace(q: Query, k: nat)
    requires q.aggregations != [] && k < |Specs(q)|
    ensures Specs(q)[k].SBucket? || Specs(q)[k].SGroup? ==> k < GroupCount(q)
    ensures Specs(q)[k].STotal? ==> Specs(q)[k].a == q.aggregations[0]
    ensures Specs(q)[k].SBucket? ==> q.bucket == Some(Specs(q)[k].b)
    ensures Specs(q)[k].SGroup? ==> Specs(q)[k].i < |OrNone(q.groupBy)| && OrNone(q.groupBy)[Specs(q)[k].i] == Specs(q)[k].field
  {
  }
}
