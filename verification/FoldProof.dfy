/** Each output of the select list, read back by its own words, has the meaning of what it was emitted for. */
module FoldProof {
  import opened Sequences
  import opened Json
  import opened Filters
  import opened Sql
  import opened Compiler
  import opened Statements
  import opened CompilerProof
  import opened Answers
  import opened Select
  import A = Aggregates

  // ---------------------------------------------------------------------------
  // Expressions
  // ---------------------------------------------------------------------------

  lemma UnliftLift(ts: seq<Token>)
    ensures (forall t | t in Lift(ts) :: t.E?) && Unlift(Lift(ts)) == ts
  {
  }

  lemma ExprRead(e: Expr, ts: seq<Token>)
    requires ts == Render(e) && WellBound(e)
    ensures ReadExpr(Lift(ts)) == Some(e)
  {
    hide Parse, Render, WellBound;
    UnliftLift(ts);
    Whole(e, Emit(ts, []));
  }

  /** A field's text as an expression, and the texts of a list of rows. */
  lemma TextRead(f: Field, ps: seq<V>)
    ensures ReadExpr(Lift(TextExpr(f, ps).ts)) == Some(TextTree(f, |ps|)) && TextExpr(f, ps).ts != []
  {
    hide Render, WellBound, ReadExpr;
    TextBuilt(f, ps);
    ExprRead(TextTree(f, |ps|), TextExpr(f, ps).ts);
  }

  lemma {:induction false} TextsRead(f: Field, ps: seq<V>, all: seq<V>, rows: seq<Row>, env: Env)
    requires TextExpr(f, ps).ps <= all
    ensures TextsV(TextTree(f, |ps|), all, rows, env) == Some(Texts(f, rows, env))
    decreases |rows|
  {
    if rows != [] {
      hide Eval, FieldText, TextExpr, TextTree;
      TextsRead(f, ps, all, Front(rows), env);
      TextReads(f, ps, all, Last(rows), env);
      assert Texts(f, Front(rows), env) + [] == Texts(f, Front(rows), env);
    }
  }

  // ---------------------------------------------------------------------------
  // Numbers
  // ---------------------------------------------------------------------------

  function NumberScalar(f: Field, n: nat): Scalar {
    match f
    case Attribute(_, _) => Read(NumberTree(n))
    case ColumnOf(Severity) => Read(Cast(Col(Severity), NumericT))
    case ColumnOf(c) => Epoch(c)
    case Unique => Epoch(Time)
  }

  lemma NumberRead(f: Field, ps: seq<V>)
    requires Numeric(f)
    ensures ReadScalar(NumberText(f, ps).ts) == Some(NumberScalar(f, |ps|))
  {
    match f
    case Attribute(path, _) =>
      hide Render, WellBound, ReadExpr, NumberTree, NumberExpr;
      NumberBuilt(path, ps);
      var ts := NumberExpr(path, ps).ts;
      ExprRead(NumberTree(|ps|), ts);
      assert |ts| > 3 by { NumberLong(path, ps); }
    case ColumnOf(c) =>
      if c == Severity {
        assert Render(Col(c)) == [ColumnT(c)];
        ExprRead(Cast(Col(c), NumericT), [ColumnT(c), CastT(NumericT)]);
      }
  }

  lemma NumberLong(path: seq<string>, ps: seq<V>)
    ensures |NumberExpr(path, ps).ts| > 3
  {
  }

  lemma ScalarReads(f: Field, ps: seq<V>, all: seq<V>, row: Row, env: Env)
    requires Numeric(f) && NumberText(f, ps).ps <= all
    ensures ScalarV(NumberScalar(f, |ps|), all, row, env) ==
            var n := FieldNumber(f, row); if n.Some? then VNum(n.value) else VNull
  {
    match f
    case Attribute(path, _) =>
      hide NumberTree, LeafNumber, NumberExpr, Eval;
      NumberReads(path, ps, all, row, env);
    case ColumnOf(c) =>
      if c == Severity {
        assert Eval(Col(c), all, row, env) == OfCell(ColumnCell(c, row));
      }
  }

  lemma {:induction false} NumbersRead(f: Field, ps: seq<V>, all: seq<V>, rows: seq<Row>, env: Env)
    requires Numeric(f) && NumberText(f, ps).ps <= all
    ensures NumbersV(NumberScalar(f, |ps|), all, rows, env) == Some(Numbers(f, rows))
    decreases |rows|
  {
    if rows != [] {
      hide ScalarV, FieldNumber, NumberText, NumberScalar, Numeric;
      NumbersRead(f, ps, all, Front(rows), env);
      ScalarReads(f, ps, all, Last(rows), env);
      assert Numbers(f, Front(rows)) + [] == Numbers(f, Front(rows));
    }
  }

  // ---------------------------------------------------------------------------
  // Folds
  // ---------------------------------------------------------------------------

  function OfNumber(n: Option<real>): V { if n.Some? then VNum(n.value) else VNull }

  lemma FoldWordsDiffer()
    ensures "sum" != "count(DISTINCT " && "avg" != "count(DISTINCT " && "min" != "count(DISTINCT " && "max" != "count(DISTINCT "
    ensures "(percentile_cont(" != "count(DISTINCT " && "(percentile_cont(" !in ["sum", "avg", "min", "max"]
    ensures "sum(" !in ["sum", "avg", "min", "max"] && "sum(" != "(percentile_cont(" && "sum(" != "count(DISTINCT "
    ensures "sum" != "avg" && "sum" != "min" && "sum" != "max" && "avg" != "min" && "avg" != "max" && "min" != "max"
  {
    assert |"sum"| == |"avg"| == |"min"| == |"max"| == 3 && |"count(DISTINCT "| == 15 && |"(percentile_cont("| == 17;
    assert |"sum("| == 4;
    assert "sum"[0] == 's' && "avg"[0] == 'a' && "min"[1] == 'i' && "max"[1] == 'a' && "min"[0] == 'm' && "max"[0] == 'm';
  }

  /** What an aggregation is read as. */
  function FoldOf(a: Aggregation, n: nat): Fold {
    match a
    case Count => Rows
    case CountDistinct(f) => Distinct(TextTree(f, n))
    case Of(m, f) => Folded(match m case Sum => "sum" case Avg => "avg" case Least => "min" case Most => "max", NumberScalar(f, n))
    case Percentile(f, _) => Continuous(n + 1, NumberScalar(f, n + 1))
  }

  lemma DistinctRead(f: Field, ps: seq<V>)
    ensures ReadFold([Word("count(DISTINCT ")] + Lift(TextExpr(f, ps).ts) + [Word(")::double precision")]) ==
            Some(Distinct(TextTree(f, |ps|)))
  {
    hide ReadExpr, TextTree, TextExpr;
    TextRead(f, ps);
    FoldWordsDiffer();
    var d := Lift(TextExpr(f, ps).ts);
    var ts := [Word("count(DISTINCT ")] + d + [Word(")::double precision")];
    assert ts[1..|ts| - 1] == d;
  }

  lemma FoldedRead(name: string, f: Field, ps: seq<V>)
    requires Numeric(f) && name in ["sum", "avg", "min", "max"]
    ensures ReadFold([Word(name), E(LParen)] + NumberText(f, ps).ts + [Word(")::double precision")]) ==
            Some(Folded(name, NumberScalar(f, |ps|)))
  {
    hide ReadScalar, NumberScalar, NumberText, Numeric;
    NumberRead(f, ps);
    NumberSome(f, ps);
    FoldWordsDiffer();
    var d := NumberText(f, ps).ts;
    var ts := [Word(name), E(LParen)] + d + [Word(")::double precision")];
    assert ts[2..|ts| - 1] == d;
  }

  lemma ContinuousRead(f: Field, ps: seq<V>, n: nat)
    requires Numeric(f)
    ensures ReadFold([Word("(percentile_cont("), E(ParamT(n)), Word("::double precision) WITHIN GROUP (ORDER BY ")] +
                     NumberText(f, ps).ts + [Word("))::double precision")]) ==
            Some(Continuous(n, NumberScalar(f, |ps|)))
  {
    hide ReadScalar, NumberScalar, NumberText, Numeric;
    NumberRead(f, ps);
    NumberSome(f, ps);
    FoldWordsDiffer();
    var d := NumberText(f, ps).ts;
    var head := [Word("(percentile_cont("), E(ParamT(n)), Word("::double precision) WITHIN GROUP (ORDER BY ")];
    var ts := head + d + [Word("))::double precision")];
    assert ts[3..|ts| - 1] == d;
  }

  lemma FoldRead(a: Aggregation, ps: seq<V>)
    requires AggregateText(a, ps).Some?
    ensures ReadFold(AggregateText(a, ps).value.ts) == Some(FoldOf(a, |ps|))
    ensures var ts := AggregateText(a, ps).value.ts; ts != [] && ts[0].Word?
  {
    hide TextTree, NumberScalar, TextExpr, NumberText, FieldOk, Numeric, ReadFold;
    match a
    case Count => CountRead();
    case CountDistinct(f) => DistinctRead(f, ps);
    case Of(m, f) => FoldedRead(match m case Sum => "sum" case Avg => "avg" case Least => "min" case Most => "max", f, ps);
    case Percentile(f, p) => ContinuousRead(f, ps + [VNum(p)], |ps| + 1);
  }

  lemma CountRead()
    ensures ReadFold([Word("count(*)::double precision")]) == Some(Rows)
  {
  }

  lemma NumberSome(f: Field, ps: seq<V>)
    requires Numeric(f)
    ensures NumberText(f, ps).ts != []
  {
  }

  /** Over any rows, what is read of the text is what the aggregation means of them. */
  lemma FoldMeans(a: Aggregation, ps: seq<V>, all: seq<V>, rows: seq<Row>, env: Env)
    requires AggregateText(a, ps).Some? && AggregateText(a, ps).value.ps <= all
    ensures FoldV(FoldOf(a, |ps|), all, rows, env) == OfNumber(ValueOf(a, rows, env))
  {
    hide TextTree, NumberScalar, TextExpr, NumberText, FieldOk, Numeric, A.Sum, A.Average, A.Least, A.Most, A.Quantile;
    FoldWordsDiffer();
    match a
    case Count =>
    case CountDistinct(f) => TextsRead(f, ps, all, rows, env);
    case Of(m, f) => NumbersRead(f, ps, all, rows, env);
    case Percentile(f, p) => PercentileMeans(f, p, ps, all, rows, env);
  }

  lemma PercentileMeans(f: Field, p: real, ps: seq<V>, all: seq<V>, rows: seq<Row>, env: Env)
    requires AggregateText(Percentile(f, p), ps).Some? && AggregateText(Percentile(f, p), ps).value.ps <= all
    ensures FoldV(FoldOf(Percentile(f, p), |ps|), all, rows, env) == OfNumber(ValueOf(Percentile(f, p), rows, env))
  {
    hide NumberScalar, NumberText, FieldOk, Numeric, A.Quantile;
    NumbersRead(f, ps + [VNum(p)], all, rows, env);
    assert ps + [VNum(p)] <= all;
    assert all[|ps|] == VNum(p);
  }

  // ---------------------------------------------------------------------------
  // Outputs
  // ---------------------------------------------------------------------------

  lemma UnitRead(u: Unit)
    ensures UnitOf(UnitName(u)) == Some(u) && StepOf(StepName(u)) == Some(u)
  {
    assert |"minute"| == 6 && |"hour"| == 4 && |"day"| == 3 && |"week"| == 4 && |"month"| == 5 && "hour"[0] == 'h';
    assert "week"[0] == 'w';
    assert |"1 minute"| == 8 && |"1 hour"| == 6 && |"1 day"| == 5 && |"1 week"| == 6 && |"1 month"| == 7;
    assert "1 hour"[2] == 'h' && "1 week"[2] == 'w';
    assert "1 " + "minute" == "1 minute" && "1 " + "hour" == "1 hour" && "1 " + "day" == "1 day";
    assert "1 " + "week" == "1 week" && "1 " + "month" == "1 month";
  }

  lemma BucketRead(b: Bucket, ps: seq<V>)
    ensures ReadOutput(BucketText(b, ps).ts) == Some(Truncated(|ps| + 1, |ps| + 2, |ps| + 2))
  {
  }

  lemma BucketMeans(b: Bucket, ps: seq<V>, all: seq<V>, row: Row, env: Env)
    requires BucketText(b, ps).ps <= all
    ensures RowV(Truncated(|ps| + 1, |ps| + 2, |ps| + 2), all, row, env) == VTime(StartOf(b, row.time, env))
  {
    hide UnitName, UnitOf;
    UnitRead(b.unit);
    assert all[|ps|] == VText(UnitName(b.unit)) && all[|ps| + 1] == VText(b.timezone);
  }

  lemma GroupRead(f: Field, ps: seq<V>)
    ensures ReadOutput(Lift(TextExpr(f, ps).ts)) == Some(Plainly(TextTree(f, |ps|)))
  {
    hide ReadExpr, TextTree, TextExpr;
    TextRead(f, ps);
  }

  lemma ValueRead(a: Aggregation, ps: seq<V>)
    requires AggregateText(a, ps).Some?
    ensures ReadOutput(AggregateText(a, ps).value.ts) == Some(Grouped(FoldOf(a, |ps|)))
  {
    hide ReadFold, FoldOf;
    FoldRead(a, ps);
    FirstWord(a, ps);
  }

  /** No fold begins as a bucket or a total does. */
  lemma FirstWord(a: Aggregation, ps: seq<V>)
    requires AggregateText(a, ps).Some?
    ensures var w := AggregateText(a, ps).value.ts[0]; w.Word? && w.s != "(date_trunc(" && w.s != "sum("
  {
    hide TextExpr, NumberText, FieldOk, Numeric;
    assert |"(date_trunc("| == 12 && |"sum("| == 4 && |"count(*)::double precision"| == 26 && |"count(DISTINCT "| == 15;
    assert |"(percentile_cont("| == 17 && |"sum"| == |"avg"| == |"min"| == |"max"| == 3;
  }

  lemma TotalRead(a: Aggregation, ps: seq<V>)
    requires AggregateText(a, ps).Some?
    ensures ReadOutput([Word("sum(")] + AggregateText(a, ps).value.ts + [Word(") OVER ()")]) == Some(Over(FoldOf(a, |ps|)))
  {
    hide ReadFold, FoldOf, AggregateText;
    FoldRead(a, ps);
    var d := AggregateText(a, ps).value.ts;
    var ts := [Word("sum(")] + d + [Word(") OVER ()")];
    assert ts[1..|ts| - 1] == d;
    assert |"(date_trunc("| == 12 && |"sum("| == 4;
  }
}
