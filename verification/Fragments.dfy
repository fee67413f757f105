/**
 * A compiled filter as a fragment of another statement: every placeholder it
 * emits has its value, and spliced in after any parameters it reads as it was
 * compiled.
 */
module Fragments {
  import opened Sequences
  import opened Json
  import opened Filters
  import opened Sql
  import opened Compiler
  import opened Splice

  /** Every placeholder has a value bound for it. */
  predicate InRange(ts: seq<Token>, n: nat) { forall i | 0 <= i < |ts| && ts[i].ParamT? :: 1 <= ts[i].n <= n }

  ghost predicate Sound(e: Emit, ps: seq<V>) { |ps| <= |e.ps| && InRange(e.ts, |e.ps|) }

  lemma InRangeJoin(a: seq<Token>, b: seq<Token>, c: seq<Token>, m: nat, n: nat)
    requires InRange(a, m) && InRange(b, n) && InRange(c, n) && m <= n
    ensures InRange(a + b + c, n)
  {
  }

  lemma TextSound(f: Field, ps: seq<V>)
    ensures Sound(TextExpr(f, ps), ps)
  {
  }

  lemma NumberSound(path: seq<string>, ps: seq<V>)
    ensures Sound(NumberExpr(path, ps), ps)
  {
  }

  lemma ComparedSound(l: Emit, op: Op, v: V, cast: seq<Token>, ps: seq<V>)
    requires Sound(l, ps) && InRange(cast, 0)
    ensures Sound(Compared(l, op, v, cast), ps)
  {
    var n := |l.ps| + 1;
    InRangeJoin(l.ts, [Infix(op)], [ParamT(n)], |l.ps|, n);
    InRangeJoin(l.ts + [Infix(op)] + [ParamT(n)], cast, [], n, n);
    InRangeJoin([LParen], l.ts + [Infix(op)] + [ParamT(n)] + cast + [], [RParen], 0, n);
    assert l.ts + [Infix(op)] + [ParamT(n)] + cast + [] == l.ts + [Infix(op)] + [ParamT(n)] + cast;
  }

  lemma WrappedSound(l: Emit, before: seq<Token>, after: seq<Token>, ps: seq<V>)
    requires Sound(l, ps) && InRange(before, 0) && InRange(after, 0)
    ensures Sound(Emit(before + l.ts + after, l.ps), ps)
  {
  }

  lemma EqSound(f: Field, v: Filters.Value, ps: seq<V>, env: Env)
    ensures Sound(EqExpr(f, v, ps, env), ps)
  {
    hide TextExpr, NumberExpr, Compared, Sound, Containable;
    TextSound(f, ps);
    if f.Attribute? { NumberSound(f.path, ps); }
    SimpleSound(ps);
    if f.Attribute? && f.reading != Some(AsNumber) && Containable(f.path) {
      ComparedSound(Emit([AttributesT], ps), Holds, VJson(Nest(f.path, ScalarJson(v))), [CastT(JsonbT)], ps);
    } else if v == SNull {
      var l := ValueExpr(f, ps);
      WrappedSound(l, [LParen], [IsNullT, RParen], ps);
      assert Parens(l.ts + [IsNullT]) == [LParen] + l.ts + [IsNullT, RParen];
    } else if f.ColumnOf? {
      ComparedSound(ColumnOnly(f.column, ps), EqOp, OfCell(ColumnValue(f.column, v, env)), [], ps);
    } else if NumericAttribute(f) {
      ComparedSound(NumberExpr(f.path, ps), EqOp, Compiler.Raw(v, env), [CastT(NumericT)], ps);
    } else {
      ComparedSound(TextExpr(f, ps), EqOp, VText(ValueText(v, env)), [], ps);
    }
  }

  lemma SimpleSound(ps: seq<V>)
    ensures Sound(Emit([AttributesT], ps), ps) && forall c :: Sound(ColumnOnly(c, ps), ps)
  {
  }

  lemma JoinSound(before: Emit, op: Op, last: Emit, ps: seq<V>)
    requires Sound(before, ps) && Sound(last, before.ps)
    ensures Sound(Emit(before.ts + [Infix(op)] + last.ts, last.ps), ps)
  {
    InRangeJoin(before.ts, [Infix(op)], last.ts, |before.ps|, |last.ps|);
  }

  lemma {:induction false} EqsSound(f: Field, vs: seq<Filters.Value>, ps: seq<V>, env: Env)
    requires vs != []
    ensures Sound(EqExprs(f, vs, ps, env), ps)
    decreases |vs|
  {
    hide EqExpr, Sound;
    if |vs| == 1 {
      EqSound(f, vs[0], ps, env);
    } else {
      EqsSound(f, Front(vs), ps, env);
      var before := EqExprs(f, Front(vs), ps, env);
      EqSound(f, Last(vs), before.ps, env);
      JoinSound(before, OrOp, EqExpr(f, Last(vs), before.ps, env), ps);
    }
  }

  lemma InSound(f: Field, vs: seq<Filters.Value>, ps: seq<V>, env: Env)
    requires vs != []
    ensures Sound(InExpr(f, vs, ps, env), ps)
  {
    hide EqExprs, Cells;
    if !f.ColumnOf? {
      EqsSound(f, vs, ps, env);
      WrappedSound(EqExprs(f, vs, ps, env), [LParen], [RParen], ps);
    }
  }

  lemma CompareSound(o: Order, f: Field, v: Filters.Value, ps: seq<V>, env: Env)
    ensures Sound(CompareExpr(o, f, v, ps, env), ps)
  {
    hide TextExpr, NumberExpr, Compared, Sound;
    SimpleSound(ps);
    if f.ColumnOf? {
      ComparedSound(ColumnOnly(f.column, ps), OrderOp(o), OfCell(ColumnValue(f.column, v, env)), [], ps);
    } else if NumericAttribute(f) {
      NumberSound(f.path, ps);
      ComparedSound(NumberExpr(f.path, ps), OrderOp(o), Compiler.Raw(v, env), [CastT(NumericT)], ps);
    } else {
      TextSound(f, ps);
      ComparedSound(TextExpr(f, ps), OrderOp(o), VText(ValueText(v, env)), [], ps);
    }
  }

  lemma MatchSound(p: Pattern, f: Field, text: string, ps: seq<V>)
    ensures Sound(MatchExpr(p, f, text, ps), ps)
  {
    hide TextExpr;
    TextSound(f, ps);
    var l := TextExpr(f, ps);
    var n := |l.ps| + 1;
    InRangeJoin(l.ts, [LikeT], [ParamT(n)], |l.ps|, n);
    InRangeJoin(l.ts + [LikeT] + [ParamT(n)], [EscapeT], [RParen], n, n);
    InRangeJoin([LParen], l.ts + [LikeT] + [ParamT(n)] + [EscapeT] + [RParen], [], 0, n);
    assert MatchExpr(p, f, text, ps).ts == [LParen] + (l.ts + [LikeT] + [ParamT(n)] + [EscapeT] + [RParen]) + [];
  }

  lemma ExistsSound(f: Field, ps: seq<V>)
    ensures Sound(ExistsExpr(f, ps), ps)
  {
    hide TextExpr;
    SimpleSound(ps);
    if f.Attribute? && |f.path| == 1 {
      ComparedSound(Emit([AttributesT], ps), HasKey, VText(f.path[0]), [], ps);
    } else if !f.Attribute? {
      TextSound(f, ps);
      var l := TextExpr(f, ps);
      WrappedSound(l, [LParen], [IsNotNullT, RParen], ps);
      assert Parens(l.ts + [IsNotNullT]) == [LParen] + l.ts + [IsNotNullT, RParen];
    }
  }

  /** Every placeholder a filter compiles to has its value. */
  lemma {:induction false} FilterSound(f: Filter, ps: seq<V>, depth: nat, env: Env)
    requires CompileFilter(f, ps, depth, env).Some?
    ensures Sound(CompileFilter(f, ps, depth, env).value, ps)
    decreases f, 1
  {
    hide EqExpr, InExpr, CompareExpr, MatchExpr, ExistsExpr, Sound, FieldOk;
    ConstantSound(ps);
    match f
    case All(fs) => if fs != [] { GroupSound(fs, AndOp, ps, depth + 1, env); }
    case Any(fs) => if fs != [] { GroupSound(fs, OrOp, ps, depth + 1, env); }
    case Not(g) =>
      FilterSound(g, ps, depth + 1, env);
      NotSound(CompileFilter(g, ps, depth + 1, env).value, ps);
    case Eq(field, v) => EqSound(field, v, ps, env);
    case Ne(field, v) => EqSound(field, v, ps, env); NotSound(EqExpr(field, v, ps, env), ps);
    case In(field, vs) => if vs != [] { InSound(field, vs, ps, env); }
    case NotIn(field, vs) => if vs != [] { InSound(field, vs, ps, env); NotSound(InExpr(field, vs, ps, env), ps); }
    case Compare(o, field, v) => CompareSound(o, field, v, ps, env);
    case Match(p, field, text) => MatchSound(p, field, text, ps);
    case Exists(field) => ExistsSound(field, ps);
    case NotExists(field) => ExistsSound(field, ps); NotSound(ExistsExpr(field, ps), ps);
  }

  lemma ConstantSound(ps: seq<V>)
    ensures Sound(Emit([TrueT], ps), ps) && Sound(Emit([FalseT], ps), ps)
  {
  }

  lemma NotSound(e: Emit, ps: seq<V>)
    requires Sound(e, ps)
    ensures Sound(Negated(e), ps)
  {
    WrappedSound(e, [LParen, NotT], [RParen], ps);
  }

  lemma {:induction false} GroupSound(fs: seq<Filter>, op: Op, ps: seq<V>, depth: nat, env: Env)
    requires fs != [] && CompileAll(fs, op, ps, depth, env).Some?
    ensures var e := CompileAll(fs, op, ps, depth, env).value; Sound(e, ps) && Sound(Emit(Parens(e.ts), e.ps), ps)
    decreases fs, 0
  {
    hide CompileFilter, Sound;
    if |fs| == 1 {
      FilterSound(fs[0], ps, depth, env);
    } else {
      GroupSound(Front(fs), op, ps, depth, env);
      var before := CompileAll(Front(fs), op, ps, depth, env).value;
      FilterSound(Last(fs), before.ps, depth, env);
      JoinSound(before, op, CompileFilter(Last(fs), before.ps, depth, env).value, ps);
    }
    WrappedSound(CompileAll(fs, op, ps, depth, env).value, [LParen], [RParen], ps);
  }

  /** In the compiler's text a dollar sign is a placeholder and nothing else. */
  lemma {:induction false} TextOnlyPlaceholders(ts: seq<Token>)
    ensures OnlyPlaceholders(TextOf(ts))
    decreases |ts|
  {
    if ts != [] {
      TextOnlyPlaceholders(ts[1..]);
      TextHead(ts[1..]);
      CharsClean(ts[0]);
      var a, b := Chars(ts[0]), TextOf(ts[1..]);
      hide Chars, TextOf;
      forall i | 0 <= i < |a + b| && (a + b)[i] == '$'
        ensures PlaceholderAt(a + b, i)
      {
        if i >= |a| {
          assert PlaceholderAt(b, i - |a|);
          assert (a + b)[i + 1..] == b[i - |a| + 1..];
        } else {
          assert a[i] in a;
          DollarOpens(ts[0], i, b);
        }
      }
      TextUnfolds(ts);
    }
  }

  lemma TextUnfolds(ts: seq<Token>)
    requires ts != []
    ensures TextOf(ts) == Chars(ts[0]) + TextOf(ts[1..])
  {
  }

  lemma DollarOpens(t: Token, i: nat, rest: string)
    requires t.ParamT? && i < |Chars(t)| && Chars(t)[i] == '$' && (rest == [] || !IsDigit(rest[0]))
    ensures PlaceholderAt(Chars(t) + rest, i)
  {
    NumberOpens(t.n, i, rest);
  }

  lemma NumberOpens(n: nat, i: nat, rest: string)
    requires i < |"$" + Decimal(n)| && ("$" + Decimal(n))[i] == '$' && (rest == [] || !IsDigit(rest[0]))
    ensures PlaceholderAt("$" + Decimal(n) + rest, i)
  {
    var d := Decimal(n);
    var s := "$" + d + rest;
    assert s[1..] == d + rest;
    RunIs(s[1..], |d|);
    assert forall j | 0 < j <= |d| :: ("$" + d)[j] == d[j - 1];
  }

  lemma {:induction false} InstantiatedBound(ts: seq<Token>, params: seq<V>)
    requires InRange(ts, |params|)
    ensures P(None) !in Instantiated(ts, params)
    decreases |ts|
  {
    if ts != [] {
      assert InRange(ts[1..], |params|) by { assert forall i | 0 <= i < |ts[1..]| :: ts[1..][i] == ts[i + 1]; }
      InstantiatedBound(ts[1..], params);
    }
  }

  lemma {:induction false} PiecesBound(chunks: seq<Chunk>)
    requires P(None) !in FrontPieces(chunks)
    ensures AllBound(chunks)
    decreases |chunks|
  {
    if chunks != [] {
      PiecesBound(chunks[1..]);
      assert chunks[0].Value? ==> FrontPieces(chunks)[0] == P(chunks[0].v);
      assert forall i | 0 < i < |chunks| :: chunks[i] == chunks[1..][i - 1];
    }
  }

  /** The fragment in another statement: its own text renumbered after `prior`, and its values bound again. */
  method Fragment(f: Filter, prior: seq<V>, env: Env) returns (out: Option<(string, seq<V>)>)
    ensures out.None? <==> CompileFilter(f, [], 0, env).None?
    ensures out.Some? ==>
              var e := CompileFilter(f, [], 0, env).value;
              Read(out.value.0, prior + out.value.1) == Instantiated(e.ts, e.ps)
  {
    hide CompileFilter, Read;
    var compiled := CompileFilter(f, [], 0, env);
    if compiled.None? { return None; }
    var e := compiled.value;
    var chunks := Spliced(TextOf(e.ts), e.ps);
    FilterSound(f, [], 0, env);
    TextReads(e.ts, e.ps);
    TextOnlyPlaceholders(e.ts);
    PiecesFromFront(chunks);
    InstantiatedBound(e.ts, e.ps);
    PiecesBound(chunks);
    ReboundReads(chunks, prior);
    return Some((Rebound(chunks, |prior|), Values(chunks)));
  }
}
