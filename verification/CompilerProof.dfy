/**
 * The emitted text, read back with SQL's own precedences and evaluated with the
 * bound parameters, means what the filter tree means, for every tree and row.
 */
module CompilerProof {
  import opened Sequences
  import opened Json
  import opened Filters
  import opened Sql
  import opened Compiler
  import Like

  /** The text is the concatenation of a well-bound expression, and nothing bound before is disturbed. */
  ghost predicate Built(t: Expr, e: Emit, ps: seq<V>) {
    e.ts == Render(t) && WellBound(t) && ps <= e.ps
  }

  /** A whole condition: it also reads as one operand in any surroundings. */
  ghost predicate Condition(t: Expr, e: Emit, ps: seq<V>) { Built(t, e, ps) && Prec(t) == 10 }

  // ---------------------------------------------------------------------------
  // Operands
  // ---------------------------------------------------------------------------

  function Operand(n: nat, cast: Option<Type>): Expr { if cast.Some? then Cast(Param(n), cast.value) else Param(n) }

  function CastTokens(cast: Option<Type>): seq<Token> { if cast.Some? then [CastT(cast.value)] else [] }

  lemma OperandBuilt(n: nat, cast: Option<Type>)
    ensures Render(Operand(n, cast)) == [ParamT(n)] + CastTokens(cast)
    ensures WellBound(Operand(n, cast)) && Prec(Operand(n, cast)) >= 9
  {
    assert Render(Param(n)) == [ParamT(n)];
  }

  lemma OperandReads(n: nat, cast: Option<Type>, all: seq<V>, row: Row, env: Env)
    requires 1 <= n <= |all|
    ensures Eval(Operand(n, cast), all, row, env) ==
            if cast.Some? then CastV(all[n - 1], cast.value, env) else all[n - 1]
  {
    hide CastV;
    assert Eval(Param(n), all, row, env) == all[n - 1];
  }

  /** `attributes op $n` and its reading. */
  function PathTree(op: Op, n: nat): Expr { Bin(op, Attributes, Operand(n, Some(TextArrayT))) }

  lemma PathBuilt(op: Op, n: nat)
    requires op == PathText || op == PathJson
    ensures Render(PathTree(op, n)) == [AttributesT, Infix(op), ParamT(n), CastT(TextArrayT)]
    ensures WellBound(PathTree(op, n)) && Prec(PathTree(op, n)) == 7
  {
    OperandBuilt(n, Some(TextArrayT));
    assert Render(Attributes) == [AttributesT];
  }

  lemma PathReads(op: Op, n: nat, path: seq<string>, all: seq<V>, row: Row, env: Env)
    requires op == PathText || op == PathJson
    requires 1 <= n <= |all| && all[n - 1] == VPath(path)
    ensures var leaf := Walk(JObj(row.attributes), path);
            Eval(PathTree(op, n), all, row, env) ==
            if op == PathText then OfText(LeafText(leaf, env)) else if leaf.Some? then VJson(leaf.value) else VNull
  {
    OperandReads(n, Some(TextArrayT), all, row, env);
    assert Eval(Attributes, all, row, env) == VJson(JObj(row.attributes));
  }

  function TextTree(f: Field, n: nat): Expr {
    match f
    case ColumnOf(c) => Cast(Col(c), TextT)
    case Attribute(_, _) => PathTree(PathText, n + 1)
    case Unique => Coalesce(Bin(KeyText, Attributes, Param(n + 1)), Bin(KeyText, Attributes, Param(n + 2)),
                            Bin(KeyText, Attributes, Param(n + 3)))
  }

  lemma ColumnTextReads(c: Column, ps: seq<V>, all: seq<V>, row: Row, env: Env)
    ensures Eval(TextTree(ColumnOf(c), |ps|), all, row, env) == OfText(ColumnText(c, row, env))
  {
  }

  lemma TextBuilt(f: Field, ps: seq<V>)
    ensures Built(TextTree(f, |ps|), TextExpr(f, ps), ps) && Prec(TextTree(f, |ps|)) >= 7
  {
    match f
    case ColumnOf(c) => assert Render(Col(c)) == [ColumnT(c)];
    case Attribute(_, _) => PathBuilt(PathText, |ps| + 1);
    case Unique => UniqueRenders(|ps|);
  }

  lemma UniqueRenders(n: nat)
    ensures Render(TextTree(Unique, n)) == TextExpr(Unique, seq(n, _ => VNull)).ts && WellBound(TextTree(Unique, n))
  {
    KeyRenders(n + 1);
    KeyRenders(n + 2);
    KeyRenders(n + 3);
  }

  lemma KeyRenders(n: nat)
    ensures Render(Bin(KeyText, Attributes, Param(n))) == [AttributesT, Infix(KeyText), ParamT(n)]
    ensures WellBound(Bin(KeyText, Attributes, Param(n)))
  {
    assert Render(Param(n)) == [ParamT(n)] && Render(Attributes) == [AttributesT];
  }

  lemma TextReads(f: Field, ps: seq<V>, all: seq<V>, row: Row, env: Env)
    requires TextExpr(f, ps).ps <= all
    ensures Eval(TextTree(f, |ps|), all, row, env) == OfText(FieldText(f, row, env))
  {
    match f
    case ColumnOf(c) => ColumnTextReads(c, ps, all, row, env);
    case Attribute(path, _) =>
      assert all[|ps|] == VPath(path);
      PathReads(PathText, |ps| + 1, path, all, row, env);
    case Unique =>
      assert all[|ps|] == VText(USER_ID) && all[|ps| + 1] == VText(DEVICE_ID) && all[|ps| + 2] == VText(SESSION_ID);
      KeyReads(USER_ID, |ps| + 1, all, row, env);
      KeyReads(DEVICE_ID, |ps| + 2, all, row, env);
      KeyReads(SESSION_ID, |ps| + 3, all, row, env);
  }

  lemma KeyReads(key: string, n: nat, all: seq<V>, row: Row, env: Env)
    requires 1 <= n <= |all| && all[n - 1] == VText(key)
    ensures Eval(Bin(KeyText, Attributes, Param(n)), all, row, env) ==
            OfText(LeafText(Walk(JObj(row.attributes), [key]), env))
  {
    hide LeafText, Walk;
    assert Eval(Param(n), all, row, env) == VText(key);
    assert Eval(Attributes, all, row, env) == VJson(JObj(row.attributes));
  }

  function NumberTree(n: nat): Expr {
    var leaf := PathTree(PathJson, n + 1);
    Paren(Case(Bin(EqOp, Typeof(leaf), NumberName), Cast(Paren(leaf), NumericT)))
  }

  lemma NumberBuilt(path: seq<string>, ps: seq<V>)
    ensures Condition(NumberTree(|ps|), NumberExpr(path, ps), ps)
  {
    hide PathTree;
    var leaf := PathTree(PathJson, |ps| + 1);
    PathBuilt(PathJson, |ps| + 1);
    CondBuilt(leaf);
    var cond, value := Bin(EqOp, Typeof(leaf), NumberName), Cast(Paren(leaf), NumericT);
    CaseBuilt(cond, value);
  }

  lemma CaseBuilt(cond: Expr, value: Expr)
    requires WellBound(cond) && WellBound(value)
    ensures Render(Paren(Case(cond, value))) == Parens([CaseT, WhenT] + Render(cond) + [ThenT] + Render(value) + [EndT])
    ensures WellBound(Paren(Case(cond, value)))
  {
    assert Render(Case(cond, value)) == [CaseT, WhenT] + Render(cond) + [ThenT] + Render(value) + [EndT];
    assert WellBound(Case(cond, value));
  }

  lemma CondBuilt(leaf: Expr)
    requires WellBound(leaf)
    ensures var cond, value := Bin(EqOp, Typeof(leaf), NumberName), Cast(Paren(leaf), NumericT);
            && WellBound(cond) && WellBound(value)
            && Render(cond) == [TypeofT, LParen] + Render(leaf) + [RParen, Infix(EqOp), NumberLit]
            && Render(value) == [LParen] + Render(leaf) + [RParen, CastT(NumericT)]
  {
    assert WellBound(Typeof(leaf)) && WellBound(Paren(leaf));
    assert Render(Typeof(leaf)) == [TypeofT, LParen] + Render(leaf) + [RParen];
    assert Render(Paren(leaf)) == [LParen] + Render(leaf) + [RParen];
    assert Render(NumberName) == [NumberLit];
  }

  lemma NumberReads(path: seq<string>, ps: seq<V>, all: seq<V>, row: Row, env: Env)
    requires NumberExpr(path, ps).ps <= all
    ensures Eval(NumberTree(|ps|), all, row, env) ==
            var n := LeafNumber(path, row); if n.Some? then VNum(n.value) else VNull
  {
    hide PathTree, Walk;
    assert all[|ps|] == VPath(path);
    var leaf := PathTree(PathJson, |ps| + 1);
    PathReads(PathJson, |ps| + 1, path, all, row, env);
    CaseOfNumber(leaf, all, row, env);
  }

  lemma CaseOfNumber(leaf: Expr, all: seq<V>, row: Row, env: Env)
    requires Eval(leaf, all, row, env).VJson? || Eval(leaf, all, row, env).VNull?
    ensures Eval(Paren(Case(Bin(EqOp, Typeof(leaf), NumberName), Cast(Paren(leaf), NumericT))), all, row, env) ==
            match Eval(leaf, all, row, env) case VJson(JNum(n)) => VNum(n) case _ => VNull
  {
    hide TypeofV, CastV, EqV;
    var v := Eval(leaf, all, row, env);
    var cond, value := Bin(EqOp, Typeof(leaf), NumberName), Cast(Paren(leaf), NumericT);
    assert Eval(Typeof(leaf), all, row, env) == TypeofV(v);
    assert Eval(NumberName, all, row, env) == VText("number");
    assert Eval(cond, all, row, env) == EqV(TypeofV(v), VText("number"));
    assert Eval(Paren(leaf), all, row, env) == v;
    assert Eval(value, all, row, env) == CastV(v, NumericT, env);
    assert Eval(Case(cond, value), all, row, env) == if Eval(cond, all, row, env) == VBool(true) then CastV(v, NumericT, env) else VNull;
    TypeofNumber(v, env);
  }

  lemma TypeofNumber(v: V, env: Env)
    requires v.VJson? || v.VNull?
    ensures (EqV(TypeofV(v), VText("number")) == VBool(true)) <==> (v.VJson? && v.j.JNum?)
    ensures v.VJson? && v.j.JNum? ==> CastV(v, NumericT, env) == VNum(v.j.n)
  {
    TypeNames();
  }

  lemma TypeNames()
    ensures "number" !in ["null", "boolean", "string", "array", "object"]
  {
    assert |"null"| == 4 && |"boolean"| == 7 && |"array"| == 5;
    assert "string"[0] == 's' && "object"[0] == 'o' && "number"[0] == 'n';
  }

  // ---------------------------------------------------------------------------
  // Comparisons
  // ---------------------------------------------------------------------------

  function ComparedTree(l: Expr, n: nat, op: Op, cast: Option<Type>): Expr { Paren(Bin(op, l, Operand(n + 1, cast))) }

  lemma ComparedBuilt(l: Expr, e: Emit, ps: seq<V>, op: Op, v: V, cast: Option<Type>)
    requires Built(l, e, ps) && Prec(l) > OpPrec(op) && OpPrec(op) >= 5
    ensures Condition(ComparedTree(l, |e.ps|, op, cast), Compared(e, op, v, CastTokens(cast)), ps)
  {
    hide Operand, Render, WellBound, Prec, CastTokens;
    var r := Operand(|e.ps| + 1, cast);
    OperandBuilt(|e.ps| + 1, cast);
    InParens(op, l, r);
    assert ps <= e.ps + [v];
    Assoc(e.ts + [Infix(op)], [ParamT(|e.ps| + 1)], CastTokens(cast));
  }

  lemma InParens(op: Op, l: Expr, r: Expr)
    requires WellBound(l) && WellBound(r) && Prec(l) > OpPrec(op) && Prec(r) > OpPrec(op)
    ensures var t := Paren(Bin(op, l, r));
            Render(t) == Parens(Render(l) + [Infix(op)] + Render(r)) && WellBound(t) && Prec(t) == 10
  {
    assert WellBound(Bin(op, l, r));
    assert Render(Bin(op, l, r)) == Render(l) + [Infix(op)] + Render(r);
  }

  lemma ComparedReads(l: Expr, e: Emit, op: Op, v: V, cast: Option<Type>, all: seq<V>, row: Row, env: Env)
    requires Compared(e, op, v, CastTokens(cast)).ps <= all
    ensures Eval(ComparedTree(l, |e.ps|, op, cast), all, row, env) ==
            Apply(op, Eval(l, all, row, env), if cast.Some? then CastV(v, cast.value, env) else v, env)
  {
    hide Operand, Apply, CastV;
    assert all[|e.ps|] == v;
    OperandReads(|e.ps| + 1, cast, all, row, env);
  }

  /** Comparing typed cells in SQL is comparing them in the meaning. */
  lemma CellsCompare(c: Column, v: Value, row: Row, env: Env)
    ensures var a, b := ColumnCell(c, row), ColumnValue(c, v, env);
            && EqV(OfCell(a), OfCell(b)) == OfTri(CellEq(a, b))
            && forall o :: OrderV(o, OfCell(a), OfCell(b), env) == OfTri(CellOrder(o, a, b, env))
  {
  }

  // ---------------------------------------------------------------------------
  // Leaves
  // ---------------------------------------------------------------------------

  function EqTree(f: Field, v: Value, n: nat): Expr {
    if f.Attribute? && f.reading != Some(AsNumber) && Containable(f.path) then ComparedTree(Attributes, n, Holds, Some(JsonbT))
    else if v == SNull then Paren(IsNull(if NumericAttribute(f) then NumberTree(n) else TextTree(f, n)))
    else if f.ColumnOf? then ComparedTree(Col(f.column), n, EqOp, None)
    else if NumericAttribute(f) then ComparedTree(NumberTree(n), n + 1, EqOp, Some(NumericT))
    else ComparedTree(TextTree(f, n), |TextExpr(f, seq(n, _ => VNull)).ps|, EqOp, None)
  }

  /** How many values a text expression binds. */
  lemma TextBinds(f: Field, ps: seq<V>, n: nat)
    requires |ps| == n
    ensures |TextExpr(f, ps).ps| == |TextExpr(f, seq(n, _ => VNull)).ps|
  {
  }

  lemma EqBuilt(f: Field, v: Value, ps: seq<V>, env: Env)
    ensures Condition(EqTree(f, v, |ps|), EqExpr(f, v, ps, env), ps)
  {
    hide Render, WellBound, TextTree, NumberTree, TextExpr, NumberExpr, Containable, Condition;
    TextBuilt(f, ps);
    TextBinds(f, ps, |ps|);
    if f.Attribute? && f.reading != Some(AsNumber) && Containable(f.path) {
      AtomBuilt(ps);
      ComparedBuilt(Attributes, Emit([AttributesT], ps), ps, Holds, VJson(Nest(f.path, ScalarJson(v))), Some(JsonbT));
    } else if v == SNull {
      if NumericAttribute(f) {
        NumberBuilt(f.path, ps);
        NullBuilt(NumberTree(|ps|), NumberExpr(f.path, ps), ps);
      } else {
        NullBuilt(TextTree(f, |ps|), TextExpr(f, ps), ps);
      }
    } else if f.ColumnOf? {
      ColumnBuilt(f.column, ps);
      ComparedBuilt(Col(f.column), ColumnOnly(f.column, ps), ps, EqOp, OfCell(ColumnValue(f.column, v, env)), None);
    } else if NumericAttribute(f) {
      NumberBuilt(f.path, ps);
      NumberBinds(f.path, ps);
      ComparedBuilt(NumberTree(|ps|), NumberExpr(f.path, ps), ps, EqOp, Raw(v, env), Some(NumericT));
    } else {
      ComparedBuilt(TextTree(f, |ps|), TextExpr(f, ps), ps, EqOp, VText(ValueText(v, env)), None);
    }
  }

  lemma NumberBinds(path: seq<string>, ps: seq<V>)
    ensures |NumberExpr(path, ps).ps| == |ps| + 1 && Prec(NumberTree(|ps|)) == 10
    ensures Condition(NumberTree(|ps|), NumberExpr(path, ps), ps) ==> Built(NumberTree(|ps|), NumberExpr(path, ps), ps)
  {
  }

  lemma AtomBuilt(ps: seq<V>)
    ensures Built(Attributes, Emit([AttributesT], ps), ps)
  {
  }

  lemma ColumnBuilt(c: Column, ps: seq<V>)
    ensures Built(Col(c), ColumnOnly(c, ps), ps)
  {
  }

  lemma NullBuilt(l: Expr, e: Emit, ps: seq<V>)
    requires (Built(l, e, ps) && Prec(l) >= 4) || Condition(l, e, ps)
    ensures Condition(Paren(IsNull(l)), Emit(Parens(e.ts + [IsNullT]), e.ps), ps)
    ensures Condition(Paren(IsNotNull(l)), Emit(Parens(e.ts + [IsNotNullT]), e.ps), ps)
  {
    assert Render(IsNull(l)) == e.ts + [IsNullT];
    assert Render(IsNotNull(l)) == e.ts + [IsNotNullT];
  }

  lemma EqReads(f: Field, v: Value, ps: seq<V>, all: seq<V>, row: Row, env: Env)
    requires EqExpr(f, v, ps, env).ps <= all
    requires FieldOk(f)
    ensures Eval(EqTree(f, v, |ps|), all, row, env) == OfTri(EqMeaning(f, v, row, env))
  {
    hide EqExpr, EqTree, EqMeaning, Eval, Containable, FieldOk;
    if f.Attribute? && f.reading != Some(AsNumber) && Containable(f.path) {
      ContainmentReads(f, v, ps, all, row, env);
    } else if v == SNull {
      NullReads(f, ps, all, row, env);
    } else if f.ColumnOf? {
      ColumnEqReads(f, v, ps, all, row, env);
    } else if NumericAttribute(f) {
      NumberEqReads(f, v, ps, all, row, env);
    } else {
      TextEqReads(f, v, ps, all, row, env);
    }
  }

  lemma NullReads(f: Field, ps: seq<V>, all: seq<V>, row: Row, env: Env)
    requires !(f.Attribute? && f.reading != Some(AsNumber) && Containable(f.path))
    requires EqExpr(f, SNull, ps, env).ps <= all
    ensures Eval(EqTree(f, SNull, |ps|), all, row, env) == OfTri(EqMeaning(f, SNull, row, env))
  {
    hide TextTree, NumberTree, TextExpr, NumberExpr, Containable, LeafNumber, ColumnText, UniqueText, Walk, LeafText;
    if NumericAttribute(f) { NumberReads(f.path, ps, all, row, env); } else { TextReads(f, ps, all, row, env); }
  }

  lemma ColumnEqReads(f: Field, v: Value, ps: seq<V>, all: seq<V>, row: Row, env: Env)
    requires f.ColumnOf? && v != SNull && EqExpr(f, v, ps, env).ps <= all
    ensures Eval(EqTree(f, v, |ps|), all, row, env) == OfTri(EqMeaning(f, v, row, env))
  {
    hide ComparedTree, ColumnValue, ColumnCell;
    ComparedReads(Col(f.column), ColumnOnly(f.column, ps), EqOp, OfCell(ColumnValue(f.column, v, env)), None, all, row, env);
    CellsCompare(f.column, v, row, env);
  }

  lemma NumberEqReads(f: Field, v: Value, ps: seq<V>, all: seq<V>, row: Row, env: Env)
    requires NumericAttribute(f) && v != SNull && EqExpr(f, v, ps, env).ps <= all
    ensures Eval(EqTree(f, v, |ps|), all, row, env) == OfTri(EqMeaning(f, v, row, env))
  {
    hide NumberTree, NumberExpr, ComparedTree, CastV, LeafNumber, CastNumber, Raw;
    NumberBinds(f.path, ps);
    NumberReads(f.path, ps, all, row, env);
    ComparedReads(NumberTree(|ps|), NumberExpr(f.path, ps), EqOp, Raw(v, env), Some(NumericT), all, row, env);
    RawCasts(v, env);
  }

  lemma TextEqReads(f: Field, v: Value, ps: seq<V>, all: seq<V>, row: Row, env: Env)
    requires !f.ColumnOf? && !NumericAttribute(f) && !(f.Attribute? && Containable(f.path))
    requires v != SNull && EqExpr(f, v, ps, env).ps <= all
    ensures Eval(EqTree(f, v, |ps|), all, row, env) == OfTri(EqMeaning(f, v, row, env))
  {
    hide TextTree, TextExpr, ComparedTree, Containable, UniqueText, Walk, LeafText, ValueText;
    TextBinds(f, ps, |ps|);
    TextReads(f, ps, all, row, env);
    ComparedReads(TextTree(f, |ps|), TextExpr(f, ps), EqOp, VText(ValueText(v, env)), None, all, row, env);
  }

  lemma RawCasts(v: Value, env: Env)
    ensures CastV(Raw(v, env), NumericT, env) == VNum(CastNumber(v, env))
  {
  }

  lemma ContainmentReads(f: Field, v: Value, ps: seq<V>, all: seq<V>, row: Row, env: Env)
    requires f.Attribute? && f.reading != Some(AsNumber) && Containable(f.path) && FieldOk(f)
    requires EqExpr(f, v, ps, env).ps <= all
    ensures Eval(EqTree(f, v, |ps|), all, row, env) == OfTri(EqMeaning(f, v, row, env))
  {
    hide Walk, Contains, Nest;
    var doc := VJson(Nest(f.path, ScalarJson(v)));
    ComparedReads(Attributes, Emit([AttributesT], ps), Holds, doc, Some(JsonbT), all, row, env);
    ContainmentIsWalk(row.attributes, f.path, ScalarJson(v));
  }

  // ---------------------------------------------------------------------------
  // Lists of alternatives
  // ---------------------------------------------------------------------------

  lemma JoinBuilt(l: Expr, before: Emit, op: Op, r: Expr, last: Emit, ps: seq<V>)
    requires op == AndOp || op == OrOp
    requires Built(l, before, ps) && Prec(l) >= OpPrec(op) && Condition(r, last, before.ps)
    ensures Built(Bin(op, l, r), Emit(before.ts + [Infix(op)] + last.ts, last.ps), ps)
  {
  }

  /** Kleene's connectives over readings are the connectives over meanings. */
  lemma LogicOfTri(op: Op, a: Tri, b: Tri)
    requires op == AndOp || op == OrOp
    ensures Logic(op, OfTri(a), OfTri(b)) == OfTri(if op == AndOp then And3(a, b) else Or3(a, b))
    ensures Or3(F, a) == a && And3(T, a) == a
  {
  }

  lemma {:induction false} EqExprsMean(f: Field, vs: seq<Value>, ps: seq<V>, env: Env) returns (t: Expr)
    requires vs != [] && FieldOk(f)
    ensures Built(t, EqExprs(f, vs, ps, env), ps) && Prec(t) in {1, 10}
    ensures forall all, row | EqExprs(f, vs, ps, env).ps <= all :: Eval(t, all, row, env) == OfTri(InEqs(f, vs, row, env))
    decreases |vs|
  {
    hide EqTree, EqExpr, EqMeaning, FieldOk;
    if |vs| == 1 {
      t := EqTree(f, vs[0], |ps|);
      EqBuilt(f, vs[0], ps, env);
      forall all, row | EqExprs(f, vs, ps, env).ps <= all
        ensures Eval(t, all, row, env) == OfTri(InEqs(f, vs, row, env))
      {
        EqReads(f, vs[0], ps, all, row, env);
        assert InEqs(f, Front(vs), row, env) == F;
        LogicOfTri(OrOp, EqMeaning(f, vs[0], row, env), F);
      }
    } else {
      var before := EqExprs(f, Front(vs), ps, env);
      var last := EqExpr(f, Last(vs), before.ps, env);
      var l := EqExprsMean(f, Front(vs), ps, env);
      var r := EqTree(f, Last(vs), |before.ps|);
      EqBuilt(f, Last(vs), before.ps, env);
      t := Bin(OrOp, l, r);
      JoinBuilt(l, before, OrOp, r, last, ps);
      forall all, row | last.ps <= all
        ensures Eval(t, all, row, env) == OfTri(InEqs(f, vs, row, env))
      {
        EqReads(f, Last(vs), before.ps, all, row, env);
        LogicOfTri(OrOp, InEqs(f, Front(vs), row, env), EqMeaning(f, Last(vs), row, env));
        assert before.ps <= all;
      }
    }
  }

  lemma {:induction false} CellsMean(c: Column, vs: seq<Value>, row: Row, env: Env)
    ensures EqAny(OfCell(ColumnCell(c, row)), Cells(c, vs, env)) == OfTri(InColumn(c, vs, row, env))
    decreases |vs|
  {
    if vs != [] {
      hide ColumnValue, ColumnCell;
      CellsMean(c, Front(vs), row, env);
      CellsCompare(c, Last(vs), row, env);
      assert Front(Cells(c, vs, env)) == Cells(c, Front(vs), env);
      LogicOfTri(OrOp, InColumn(c, Front(vs), row, env), CellEq(ColumnCell(c, row), ColumnValue(c, Last(vs), env)));
    }
  }

  function AnyTree(c: Column, n: nat): Expr { Paren(Bin(EqOp, Col(c), AnyOf(Param(n)))) }

  lemma AnyBuilt(c: Column, n: nat)
    ensures Render(AnyTree(c, n)) == Parens([ColumnT(c), Infix(EqOp), AnyT, LParen, ParamT(n), RParen])
    ensures WellBound(AnyTree(c, n))
  {
    assert Render(Param(n)) == [ParamT(n)] && Render(Col(c)) == [ColumnT(c)];
    assert Render(AnyOf(Param(n))) == [AnyT, LParen, ParamT(n), RParen];
    assert Render(Bin(EqOp, Col(c), AnyOf(Param(n)))) == [ColumnT(c), Infix(EqOp), AnyT, LParen, ParamT(n), RParen];
    assert WellBound(Param(n)) && WellBound(Col(c));
    assert WellBound(AnyOf(Param(n)));
  }

  lemma AnyReads(c: Column, vs: seq<Value>, n: nat, all: seq<V>, row: Row, env: Env)
    requires 1 <= n <= |all| && all[n - 1] == VList(Cells(c, vs, env))
    ensures Eval(AnyTree(c, n), all, row, env) == OfTri(InColumn(c, vs, row, env))
  {
    hide Cells, EqAny, ColumnCell;
    CellsMean(c, vs, row, env);
    assert Eval(Param(n), all, row, env) == VList(Cells(c, vs, env));
    assert Eval(AnyOf(Param(n)), all, row, env) == VList(Cells(c, vs, env));
    assert Eval(Col(c), all, row, env) == OfCell(ColumnCell(c, row));
    assert Eval(Bin(EqOp, Col(c), AnyOf(Param(n))), all, row, env) == OfTri(InColumn(c, vs, row, env));
  }

  lemma InMeans(f: Field, vs: seq<Value>, ps: seq<V>, env: Env) returns (t: Expr)
    requires vs != [] && FieldOk(f)
    ensures Condition(t, InExpr(f, vs, ps, env), ps)
    ensures forall all, row | InExpr(f, vs, ps, env).ps <= all :: Eval(t, all, row, env) == OfTri(InMeaning(f, vs, row, env))
  {
    hide EqExprs, InEqs, InColumn, Cells, FieldOk, AnyTree;
    if f.ColumnOf? {
      t := AnyTree(f.column, |ps| + 1);
      AnyBuilt(f.column, |ps| + 1);
      AnyIsParen(f.column, |ps| + 1);
      forall all, row | InExpr(f, vs, ps, env).ps <= all
        ensures Eval(t, all, row, env) == OfTri(InMeaning(f, vs, row, env))
      {
        assert all[|ps|] == VList(Cells(f.column, vs, env));
        AnyReads(f.column, vs, |ps| + 1, all, row, env);
      }
    } else {
      var inner := EqExprsMean(f, vs, ps, env);
      t := Paren(inner);
    }
  }

  lemma AnyIsParen(c: Column, n: nat)
    ensures Prec(AnyTree(c, n)) == 10
  {
  }

  // ---------------------------------------------------------------------------
  // The other conditions
  // ---------------------------------------------------------------------------

  lemma CompareMeans(o: Order, f: Field, v: Value, ps: seq<V>, env: Env) returns (t: Expr)
    ensures Condition(t, CompareExpr(o, f, v, ps, env), ps)
    ensures forall all, row | CompareExpr(o, f, v, ps, env).ps <= all ::
              Eval(t, all, row, env) == OfTri(CompareMeaning(o, f, v, row, env))
  {
    hide CompareExpr, CompareMeaning, Condition, Eval;
    if f.ColumnOf? {
      t := ColumnCompares(o, f, v, ps, env);
    } else if NumericAttribute(f) {
      t := NumberCompares(o, f, v, ps, env);
    } else {
      t := TextCompares(o, f, v, ps, env);
    }
  }

  lemma ColumnCompares(o: Order, f: Field, v: Value, ps: seq<V>, env: Env) returns (t: Expr)
    requires f.ColumnOf?
    ensures Condition(t, CompareExpr(o, f, v, ps, env), ps)
    ensures forall all, row | CompareExpr(o, f, v, ps, env).ps <= all ::
              Eval(t, all, row, env) == OfTri(CompareMeaning(o, f, v, row, env))
  {
    hide ColumnValue, ComparedTree, Compared, Condition;
    var op, b := OrderOp(o), OfCell(ColumnValue(f.column, v, env));
    t := ComparedTree(Col(f.column), |ps|, op, None);
    ColumnBuilt(f.column, ps);
    ComparedBuilt(Col(f.column), ColumnOnly(f.column, ps), ps, op, b, None);
    forall all, row | CompareExpr(o, f, v, ps, env).ps <= all
      ensures Eval(t, all, row, env) == OfTri(CompareMeaning(o, f, v, row, env))
    {
      ComparedReads(Col(f.column), ColumnOnly(f.column, ps), op, b, None, all, row, env);
      CellsCompare(f.column, v, row, env);
    }
  }

  lemma NumberCompares(o: Order, f: Field, v: Value, ps: seq<V>, env: Env) returns (t: Expr)
    requires NumericAttribute(f)
    ensures Condition(t, CompareExpr(o, f, v, ps, env), ps)
    ensures forall all, row | CompareExpr(o, f, v, ps, env).ps <= all ::
              Eval(t, all, row, env) == OfTri(CompareMeaning(o, f, v, row, env))
  {
    hide NumberTree, NumberExpr, ComparedTree, Compared, Condition, LeafNumber, CastV, Raw, CastNumber;
    var op, l := OrderOp(o), NumberExpr(f.path, ps);
    t := ComparedTree(NumberTree(|ps|), |l.ps|, op, Some(NumericT));
    NumberBuilt(f.path, ps);
    NumberBinds(f.path, ps);
    ComparedBuilt(NumberTree(|ps|), l, ps, op, Raw(v, env), Some(NumericT));
    forall all, row | CompareExpr(o, f, v, ps, env).ps <= all
      ensures Eval(t, all, row, env) == OfTri(CompareMeaning(o, f, v, row, env))
    {
      ComparedExtends(l, op, Raw(v, env), [CastT(NumericT)], all);
      NumberReads(f.path, ps, all, row, env);
      ComparedReads(NumberTree(|ps|), l, op, Raw(v, env), Some(NumericT), all, row, env);
      RawCasts(v, env);
    }
  }

  lemma TextCompares(o: Order, f: Field, v: Value, ps: seq<V>, env: Env) returns (t: Expr)
    requires !f.ColumnOf? && !NumericAttribute(f)
    ensures Condition(t, CompareExpr(o, f, v, ps, env), ps)
    ensures forall all, row | CompareExpr(o, f, v, ps, env).ps <= all ::
              Eval(t, all, row, env) == OfTri(CompareMeaning(o, f, v, row, env))
  {
    hide TextTree, TextExpr, ComparedTree, Compared, Condition, FieldText, ValueText;
    var op, l := OrderOp(o), TextExpr(f, ps);
    t := ComparedTree(TextTree(f, |ps|), |l.ps|, op, None);
    TextBuilt(f, ps);
    ComparedBuilt(TextTree(f, |ps|), l, ps, op, VText(ValueText(v, env)), None);
    forall all, row | CompareExpr(o, f, v, ps, env).ps <= all
      ensures Eval(t, all, row, env) == OfTri(CompareMeaning(o, f, v, row, env))
    {
      ComparedExtends(l, op, VText(ValueText(v, env)), [], all);
      TextReads(f, ps, all, row, env);
      ComparedReads(TextTree(f, |ps|), l, op, VText(ValueText(v, env)), None, all, row, env);
    }
  }

  lemma ComparedExtends(l: Emit, op: Op, v: V, cast: seq<Token>, all: seq<V>)
    requires Compared(l, op, v, cast).ps <= all
    ensures l.ps <= all
  {
  }

  lemma MatchMeans(p: Pattern, f: Field, text: string, ps: seq<V>, env: Env) returns (t: Expr)
    ensures Condition(t, MatchExpr(p, f, text, ps), ps)
    ensures forall all, row | MatchExpr(p, f, text, ps).ps <= all ::
              Eval(t, all, row, env) == OfTri(MatchMeaning(p, f, text, row, env))
  {
    hide TextTree, TextExpr, FieldText, Like.Matches, Like.Within, Like.EndsWith, PatternText;
    var l := TextExpr(f, ps);
    var operand, pattern := TextTree(f, |ps|), Param(|l.ps| + 1);
    t := Paren(LikeEscape(operand, pattern));
    TextBuilt(f, ps);
    assert Render(pattern) == [ParamT(|l.ps| + 1)];
    assert Render(LikeEscape(operand, pattern)) == l.ts + [LikeT] + [ParamT(|l.ps| + 1)] + [EscapeT];
    assert WellBound(LikeEscape(operand, pattern));
    assert ps <= l.ps + [VText(PatternText(p, text))];
    forall all, row | MatchExpr(p, f, text, ps).ps <= all
      ensures Eval(t, all, row, env) == OfTri(MatchMeaning(p, f, text, row, env))
    {
      TextReads(f, ps, all, row, env);
      assert Eval(pattern, all, row, env) == VText(PatternText(p, text));
      if FieldText(f, row, env).Some? { PatternMeans(p, text, FieldText(f, row, env).value); }
    }
  }

  lemma PatternMeans(p: Pattern, text: string, s: string)
    ensures Like.Matches(PatternText(p, text), s) ==
            match p case Containing => Like.Within(text, s) case Starting => text <= s case Ending => Like.EndsWith(text, s)
  {
    match p
    case Containing => Like.ContainsPattern(text, s);
    case Starting => Like.StartsPattern(text, s);
    case Ending => Like.EndsPattern(text, s);
  }

  lemma ExistsMeans(f: Field, ps: seq<V>, env: Env) returns (t: Expr)
    ensures Condition(t, ExistsExpr(f, ps), ps)
    ensures forall all, row | ExistsExpr(f, ps).ps <= all :: Eval(t, all, row, env) == OfTri(ExistsMeaning(f, row, env))
  {
    hide ExistsExpr, ExistsMeaning, Condition, Eval;
    if f.Attribute? && |f.path| == 1 {
      t := KeyExists(f, ps, env);
    } else if f.Attribute? {
      t := PathExists(f, ps, env);
    } else {
      t := TextExists(f, ps, env);
    }
  }

  lemma KeyExists(f: Field, ps: seq<V>, env: Env) returns (t: Expr)
    requires f.Attribute? && |f.path| == 1
    ensures Condition(t, ExistsExpr(f, ps), ps)
    ensures forall all, row | ExistsExpr(f, ps).ps <= all :: Eval(t, all, row, env) == OfTri(ExistsMeaning(f, row, env))
  {
    hide ComparedTree, Compared, Condition, Walk;
    var l := Emit([AttributesT], ps);
    t := ComparedTree(Attributes, |ps|, HasKey, None);
    AtomBuilt(ps);
    ComparedBuilt(Attributes, l, ps, HasKey, VText(f.path[0]), None);
    forall all, row | ExistsExpr(f, ps).ps <= all
      ensures Eval(t, all, row, env) == OfTri(ExistsMeaning(f, row, env))
    {
      ComparedReads(Attributes, l, HasKey, VText(f.path[0]), None, all, row, env);
      OneKey(row.attributes, f.path);
    }
  }

  lemma PathExists(f: Field, ps: seq<V>, env: Env) returns (t: Expr)
    requires f.Attribute? && |f.path| != 1
    ensures Condition(t, ExistsExpr(f, ps), ps)
    ensures forall all, row | ExistsExpr(f, ps).ps <= all :: Eval(t, all, row, env) == OfTri(ExistsMeaning(f, row, env))
  {
    hide PathTree, Walk, Condition;
    var l := Emit([AttributesT, Infix(PathJson), ParamT(|ps| + 1), CastT(TextArrayT)], ps + [VPath(f.path)]);
    var leaf := PathTree(PathJson, |ps| + 1);
    t := Paren(IsNotNull(leaf));
    PathBuilt(PathJson, |ps| + 1);
    NullBuilt(leaf, l, ps);
    assert ExistsExpr(f, ps) == Emit(Parens(l.ts + [IsNotNullT]), l.ps);
    forall all, row | ExistsExpr(f, ps).ps <= all
      ensures Eval(t, all, row, env) == OfTri(ExistsMeaning(f, row, env))
    {
      assert all[|ps|] == VPath(f.path);
      PathReads(PathJson, |ps| + 1, f.path, all, row, env);
      NotNullReads(leaf, all, row, env);
    }
  }

  lemma TextExists(f: Field, ps: seq<V>, env: Env) returns (t: Expr)
    requires !f.Attribute?
    ensures Condition(t, ExistsExpr(f, ps), ps)
    ensures forall all, row | ExistsExpr(f, ps).ps <= all :: Eval(t, all, row, env) == OfTri(ExistsMeaning(f, row, env))
  {
    hide TextTree, TextExpr, FieldText, Condition;
    t := Paren(IsNotNull(TextTree(f, |ps|)));
    TextBuilt(f, ps);
    NullBuilt(TextTree(f, |ps|), TextExpr(f, ps), ps);
    forall all, row | ExistsExpr(f, ps).ps <= all
      ensures Eval(t, all, row, env) == OfTri(ExistsMeaning(f, row, env))
    {
      TextReads(f, ps, all, row, env);
      NotNullReads(TextTree(f, |ps|), all, row, env);
    }
  }

  lemma NotNullReads(x: Expr, all: seq<V>, row: Row, env: Env)
    requires Eval(x, all, row, env) != VError
    ensures Eval(Paren(IsNotNull(x)), all, row, env) == VBool(Eval(x, all, row, env) != VNull)
  {
    assert Eval(IsNotNull(x), all, row, env) == VBool(Eval(x, all, row, env) != VNull);
  }

  lemma OneKey(fields: map<string, Json>, path: seq<string>)
    requires |path| == 1
    ensures Walk(JObj(fields), path).Some? <==> path[0] in fields
  {
    assert path[1..] == [];
  }

  // ---------------------------------------------------------------------------
  // The tree
  // ---------------------------------------------------------------------------

  lemma NegatedBuilt(t: Expr, e: Emit, ps: seq<V>)
    requires Condition(t, e, ps)
    ensures Condition(Paren(Negate(t)), Negated(e), ps)
  {
    assert Render(Negate(t)) == [NotT] + e.ts;
    assert [LParen, NotT] + e.ts + [RParen] == [LParen] + Render(Negate(t)) + [RParen];
  }

  lemma NegatedReads(t: Expr, m: Tri, all: seq<V>, row: Row, env: Env)
    requires Eval(t, all, row, env) == OfTri(m)
    ensures Eval(Paren(Negate(t)), all, row, env) == OfTri(Not3(m))
  {
    assert Eval(Negate(t), all, row, env) == OfTri(Not3(m));
  }

  /** What a compiled filter is: an operand, built of the text, that reads as the meaning on every row. */
  ghost predicate Faithful(t: Expr, e: Emit, f: Filter, ps: seq<V>, env: Env) {
    Condition(t, e, ps) && forall all, row | e.ps <= all :: Eval(t, all, row, env) == OfTri(Meaning(f, row, env))
  }

  lemma FaithfulNot(t: Expr, e: Emit, f: Filter, g: Filter, ps: seq<V>, env: Env)
    requires Faithful(t, e, f, ps, env) && forall row :: Meaning(g, row, env) == Not3(Meaning(f, row, env))
    ensures Faithful(Paren(Negate(t)), Negated(e), g, ps, env)
  {
    hide Meaning;
    NegatedBuilt(t, e, ps);
    forall all, row | e.ps <= all
      ensures Eval(Paren(Negate(t)), all, row, env) == OfTri(Meaning(g, row, env))
    {
      NegatedReads(t, Meaning(f, row, env), all, row, env);
    }
  }

  lemma ConstantFaithful(b: bool, f: Filter, ps: seq<V>, env: Env)
    requires forall row :: Meaning(f, row, env) == Truth(b)
    ensures Faithful(Literal(b), Emit([if b then TrueT else FalseT], ps), f, ps, env)
  {
  }

  /** Filters that are one condition on one field. */
  lemma LeafFaithful(f: Filter, ps: seq<V>, depth: nat, env: Env) returns (t: Expr)
    requires f.Eq? || f.In? || f.Compare? || f.Match? || f.Exists?
    requires CompileFilter(f, ps, depth, env).Some?
    ensures Faithful(t, CompileFilter(f, ps, depth, env).value, f, ps, env)
  {
    hide EqTree, EqExpr, EqMeaning, InExpr, InMeaning, CompareExpr, CompareMeaning;
    hide MatchExpr, MatchMeaning, ExistsExpr, ExistsMeaning, FieldOk, Condition;
    match f
    case Eq(field, v) =>
      t := EqTree(field, v, |ps|);
      EqBuilt(field, v, ps, env);
      forall all, row | EqExpr(field, v, ps, env).ps <= all
        ensures Eval(t, all, row, env) == OfTri(Meaning(f, row, env))
      {
        EqReads(field, v, ps, all, row, env);
      }
    case In(field, vs) =>
      if vs == [] {
        t := Literal(false);
        NothingIn(field, env);
        ConstantFaithful(false, f, ps, env);
      } else {
        t := InMeans(field, vs, ps, env);
      }
    case Compare(o, field, v) => t := CompareMeans(o, field, v, ps, env);
    case Match(p, field, text) => t := MatchMeans(p, field, text, ps, env);
    case Exists(field) => t := ExistsMeans(field, ps, env);
  }

  lemma NothingIn(f: Field, env: Env)
    ensures forall row :: InMeaning(f, [], row, env) == F
  {
  }

  /** The positive form of a negated operator. */
  function Positive(f: Filter): Filter
    requires f.Ne? || f.NotIn? || f.NotExists?
  {
    match f
    case Ne(field, v) => Eq(field, v)
    case NotIn(field, vs) => In(field, vs)
    case NotExists(field) => Exists(field)
  }

  lemma NegativeFaithful(f: Filter, ps: seq<V>, depth: nat, env: Env) returns (t: Expr)
    requires f.Ne? || f.NotIn? || f.NotExists?
    requires CompileFilter(f, ps, depth, env).Some?
    ensures Faithful(t, CompileFilter(f, ps, depth, env).value, f, ps, env)
  {
    hide EqExpr, EqMeaning, InExpr, ExistsExpr, ExistsMeaning, FieldOk, Faithful, Negated, InMeaning;
    if f.NotIn? && f.values == [] {
      t := Literal(true);
      NothingIn(f.field, env);
      ConstantFaithful(true, f, ps, env);
    } else {
      var p := LeafFaithful(Positive(f), ps, depth, env);
      t := Paren(Negate(p));
      FaithfulNot(p, CompileFilter(Positive(f), ps, depth, env).value, Positive(f), f, ps, env);
    }
  }

  /** Everything the compiler emits is faithful. */
  lemma {:induction false} FilterFaithful(f: Filter, ps: seq<V>, depth: nat, env: Env) returns (t: Expr)
    requires CompileFilter(f, ps, depth, env).Some?
    ensures Faithful(t, CompileFilter(f, ps, depth, env).value, f, ps, env)
    decreases f
  {
    hide Faithful;
    match f
    case All(fs) =>
      if fs == [] { t := Literal(true); ConstantFaithful(true, f, ps, env); }
      else { t := GroupFaithful(f, fs, AndOp, ps, depth + 1, env); }
    case Any(fs) =>
      if fs == [] { t := Literal(false); ConstantFaithful(false, f, ps, env); }
      else { t := GroupFaithful(f, fs, OrOp, ps, depth + 1, env); }
    case Not(g) =>
      var inner := FilterFaithful(g, ps, depth + 1, env);
      t := Paren(Negate(inner));
      FaithfulNot(inner, CompileFilter(g, ps, depth + 1, env).value, g, f, ps, env);
    case Ne(_, _) => t := NegativeFaithful(f, ps, depth, env);
    case NotIn(_, _) => t := NegativeFaithful(f, ps, depth, env);
    case NotExists(_) => t := NegativeFaithful(f, ps, depth, env);
    case _ => t := LeafFaithful(f, ps, depth, env);
  }

  ghost function GroupMeaning(op: Op, fs: seq<Filter>, row: Row, env: Env): Tri {
    if op == AndOp then AllMeaning(fs, row, env) else AnyMeaning(fs, row, env)
  }

  lemma {:induction false} GroupFaithful(f: Filter, fs: seq<Filter>, op: Op, ps: seq<V>, depth: nat, env: Env) returns (t: Expr)
    requires fs != [] && ((f == All(fs) && op == AndOp) || (f == Any(fs) && op == OrOp))
    requires CompileAll(fs, op, ps, depth, env).Some?
    ensures var e := CompileAll(fs, op, ps, depth, env).value;
            Faithful(t, Emit(Parens(e.ts), e.ps), f, ps, env)
    decreases fs, 1
  {
    hide CompileFilter, CompileAll;
    var e := CompileAll(fs, op, ps, depth, env).value;
    var inner := JoinFaithful(fs, op, ps, depth, env);
    t := Paren(inner);
    assert Render(t) == Parens(e.ts);
    forall all, row | e.ps <= all
      ensures Eval(t, all, row, env) == OfTri(Meaning(f, row, env))
    {
      assert Eval(t, all, row, env) == Eval(inner, all, row, env);
      GroupIsMeaning(f, fs, op, row, env);
    }
  }

  lemma GroupIsMeaning(f: Filter, fs: seq<Filter>, op: Op, row: Row, env: Env)
    requires (f == All(fs) && op == AndOp) || (f == Any(fs) && op == OrOp)
    ensures Meaning(f, row, env) == GroupMeaning(op, fs, row, env)
  {
    hide AllMeaning, AnyMeaning;
  }

  lemma {:induction false} JoinFaithful(fs: seq<Filter>, op: Op, ps: seq<V>, depth: nat, env: Env) returns (t: Expr)
    requires fs != [] && (op == AndOp || op == OrOp)
    requires CompileAll(fs, op, ps, depth, env).Some?
    ensures var e := CompileAll(fs, op, ps, depth, env).value;
            && Built(t, e, ps) && Prec(t) in {OpPrec(op), 10}
            && forall all, row | e.ps <= all :: Eval(t, all, row, env) == OfTri(GroupMeaning(op, fs, row, env))
    decreases fs, 0
  {
    hide CompileFilter, Meaning;
    var e := CompileAll(fs, op, ps, depth, env).value;
    if |fs| == 1 {
      t := FilterFaithful(fs[0], ps, depth, env);
      forall all, row | e.ps <= all
        ensures Eval(t, all, row, env) == OfTri(GroupMeaning(op, fs, row, env))
      {
        assert Front(fs) == [] && AllMeaning(Front(fs), row, env) == T && AnyMeaning(Front(fs), row, env) == F;
        LogicOfTri(op, Meaning(fs[0], row, env), T);
      }
    } else {
      var before := CompileAll(Front(fs), op, ps, depth, env).value;
      var last := CompileFilter(Last(fs), before.ps, depth, env).value;
      var l := JoinFaithful(Front(fs), op, ps, depth, env);
      var r := FilterFaithful(Last(fs), before.ps, depth, env);
      t := Bin(op, l, r);
      JoinBuilt(l, before, op, r, last, ps);
      forall all, row | e.ps <= all
        ensures Eval(t, all, row, env) == OfTri(GroupMeaning(op, fs, row, env))
      {
        assert before.ps <= all && last.ps <= all;
        LogicOfTri(op, GroupMeaning(op, Front(fs), row, env), Meaning(Last(fs), row, env));
      }
    }
  }

  // ---------------------------------------------------------------------------
  // The WHERE clause
  // ---------------------------------------------------------------------------

  function InScope(scope: Scope, row: Row): bool {
    row.project == scope.project && scope.from <= row.time < scope.to
  }

  function ScopeTree(): Expr {
    Bin(AndOp,
        Bin(AndOp, Bin(EqOp, Project, Cast(Param(1), UuidT)), Bin(GteOp, Col(Time), Param(2))),
        Bin(LtOp, Col(Time), Param(3)))
  }

  /** One comparison of two operands. */
  lemma BoundBuilt(op: Op, l: Expr, r: Expr)
    requires op in {EqOp, GteOp, LtOp} && WellBound(l) && WellBound(r) && Prec(l) >= 9 && Prec(r) >= 9
    ensures Render(Bin(op, l, r)) == Render(l) + [Infix(op)] + Render(r)
    ensures WellBound(Bin(op, l, r)) && Prec(Bin(op, l, r)) == 5
  {
  }

  lemma BothBuilt(l: Expr, r: Expr)
    requires WellBound(l) && WellBound(r) && Prec(l) in {2, 5} && Prec(r) == 5
    ensures Render(Bin(AndOp, l, r)) == Render(l) + [Infix(AndOp)] + Render(r)
    ensures WellBound(Bin(AndOp, l, r)) && Prec(Bin(AndOp, l, r)) == 2
  {
  }

  lemma ScopeBuilt(scope: Scope)
    ensures Built(ScopeTree(), ScopeExpr(scope), []) && Prec(ScopeTree()) == 2
  {
    hide WellBound, Prec, OpPrec;
    OperandBuilt(1, Some(UuidT));
    OperandBuilt(2, None);
    OperandBuilt(3, None);
    AtomsBuilt();
    var p, from := Bin(EqOp, Project, Operand(1, Some(UuidT))), Bin(GteOp, Col(Time), Operand(2, None));
    var to := Bin(LtOp, Col(Time), Operand(3, None));
    BoundBuilt(EqOp, Project, Operand(1, Some(UuidT)));
    BoundBuilt(GteOp, Col(Time), Operand(2, None));
    BoundBuilt(LtOp, Col(Time), Operand(3, None));
    BothBuilt(p, from);
    BothBuilt(Bin(AndOp, p, from), to);
  }

  lemma AtomsBuilt()
    ensures Render(Project) == [ProjectT] && Render(Col(Time)) == [ColumnT(Time)]
    ensures WellBound(Project) && WellBound(Col(Time)) && Prec(Project) >= 9 && Prec(Col(Time)) >= 9
  {
  }

  lemma BinReads(op: Op, l: Expr, r: Expr, all: seq<V>, row: Row, env: Env)
    ensures Eval(Bin(op, l, r), all, row, env) == Apply(op, Eval(l, all, row, env), Eval(r, all, row, env), env)
  {
    hide Apply;
  }

  lemma ScopeReads(scope: Scope, all: seq<V>, row: Row, env: Env)
    requires ScopeExpr(scope).ps <= all
    ensures Eval(ScopeTree(), all, row, env) == VBool(InScope(scope, row))
  {
    hide Eval;
    assert all[0] == VText(scope.project) && all[1] == VTime(scope.from) && all[2] == VTime(scope.to);
    OperandReads(1, Some(UuidT), all, row, env);
    OperandReads(2, None, all, row, env);
    OperandReads(3, None, all, row, env);
    AtomsRead(all, row, env);
    var p, from := Bin(EqOp, Project, Operand(1, Some(UuidT))), Bin(GteOp, Col(Time), Operand(2, None));
    var to := Bin(LtOp, Col(Time), Operand(3, None));
    BinReads(EqOp, Project, Operand(1, Some(UuidT)), all, row, env);
    BinReads(GteOp, Col(Time), Operand(2, None), all, row, env);
    BinReads(LtOp, Col(Time), Operand(3, None), all, row, env);
    assert Eval(p, all, row, env) == VBool(row.project == scope.project);
    assert Eval(from, all, row, env) == VBool(scope.from <= row.time);
    assert Eval(to, all, row, env) == VBool(row.time < scope.to);
    BinReads(AndOp, p, from, all, row, env);
    BinReads(AndOp, Bin(AndOp, p, from), to, all, row, env);
  }

  lemma AtomsRead(all: seq<V>, row: Row, env: Env)
    ensures Eval(Project, all, row, env) == VText(row.project) && Eval(Col(Time), all, row, env) == VTime(row.time)
  {
  }

  /** A clause that reads, whole and from its first token, as one expression with the given value on every row. */
  ghost predicate ReadsAs(e: Emit, t: Expr) { Parse(e.ts, 0) == Some((t, [])) }

  /**
   * For every scope, filter tree and row: the emitted WHERE text, re-parsed with
   * SQL's precedences and evaluated with the parameters bound, is the scope AND
   * the filter's meaning, whatever the select list bound in between.
   */
  lemma WhereMeans(scope: Scope, selected: seq<V>, filter: Filter, env: Env) returns (t: Expr)
    requires Where(scope, selected, Some(filter), env).Some?
    ensures var e := Where(scope, selected, Some(filter), env).value;
            && ReadsAs(e, t)
            && forall row, all | e.ps <= all ::
                 Eval(t, all, row, env) == OfTri(And3(Truth(InScope(scope, row)), Meaning(filter, row, env)))
  {
    hide CompileFilter, Meaning, ScopeTree, ScopeExpr, Parse, Render;
    var s := ScopeExpr(scope);
    var e := CompileFilter(filter, s.ps + selected, 0, env).value;
    var r := FilterFaithful(filter, s.ps + selected, 0, env);
    t := Bin(AndOp, ScopeTree(), r);
    ScopeBuilt(scope);
    JoinBuilt(ScopeTree(), s, AndOp, r, Emit(e.ts, e.ps), []) by { JoinPrefix(r, e, s, selected); }
    Whole(t, Where(scope, selected, Some(filter), env).value);
    forall row, all | e.ps <= all
      ensures Eval(t, all, row, env) == OfTri(And3(Truth(InScope(scope, row)), Meaning(filter, row, env)))
    {
      assert s.ps <= all;
      ScopeReads(scope, all, row, env);
      LogicOfTri(AndOp, Truth(InScope(scope, row)), Meaning(filter, row, env));
    }
  }

  lemma JoinPrefix(r: Expr, e: Emit, s: Emit, selected: seq<V>)
    requires Condition(r, e, s.ps + selected)
    ensures Condition(r, e, s.ps)
  {
  }

  lemma Whole(t: Expr, e: Emit)
    requires e.ts == Render(t) && WellBound(t)
    ensures ReadsAs(e, t)
  {
    ParseRender(t, 0, []);
    assert Render(t) + [] == Render(t);
  }

  /** No filter, however it is built, selects a row outside the project and the window. */
  lemma NoFilterWidens(scope: Scope, selected: seq<V>, filter: Filter, env: Env, row: Row) returns (t: Expr)
    requires Where(scope, selected, Some(filter), env).Some?
    ensures var e := Where(scope, selected, Some(filter), env).value;
            && ReadsAs(e, t)
            && (Eval(t, e.ps, row, env) == VBool(true) <==> InScope(scope, row) && Meaning(filter, row, env) == T)
  {
    t := WhereMeans(scope, selected, filter, env);
  }
}
