/**
 * The fragment of SQL the compiler emits: tokens, the expressions they are read
 * as, PostgreSQL's precedences (section 4.1.6 of its manual), and evaluation in
 * three-valued logic with bound parameters.
 */
module Sql {
  import opened Sequences
  import opened Json
  import opened Filters
  import Like

  datatype Type = TextT | TextArrayT | JsonbT | NumericT | UuidT

  datatype Op = OrOp | AndOp | EqOp | LtOp | LteOp | GtOp | GteOp | PathText | PathJson | KeyText | Holds | HasKey

  datatype Token =
    | LParen | RParen | Comma | Infix(op: Op) | NotT | TrueT | FalseT | IsNullT | IsNotNullT
    | LikeT | EscapeT | ColumnT(c: Column) | ProjectT | AttributesT | ParamT(n: nat) | CastT(ty: Type)
    | CoalesceT | AnyT | CaseT | WhenT | ThenT | EndT | TypeofT | NumberLit

  datatype Expr =
    | Col(c: Column) | Project | Attributes | Param(n: nat) | Literal(b: bool) | NumberName
    | Bin(op: Op, l: Expr, r: Expr)
    | Negate(e: Expr) | IsNull(e: Expr) | IsNotNull(e: Expr)
    | LikeEscape(e: Expr, pattern: Expr)
    | Cast(e: Expr, ty: Type)
    | Paren(e: Expr)
    | Coalesce(first: Expr, second: Expr, third: Expr)
    | AnyOf(e: Expr)
    | Typeof(e: Expr)
    | Case(cond: Expr, then_: Expr)

  // ---------------------------------------------------------------------------
  // Precedence
  // ---------------------------------------------------------------------------

  function OpPrec(op: Op): nat {
    match op
    case OrOp => 1
    case AndOp => 2
    case EqOp | LtOp | LteOp | GtOp | GteOp => 5
    case _ => 7
  }

  /** How tightly a token binds to what stands before it; 0 for a token that ends an expression. */
  function Binding(t: Token): nat {
    match t
    case Infix(op) => OpPrec(op)
    case IsNullT | IsNotNullT => 4
    case LikeT => 6
    case CastT(_) => 9
    case _ => 0
  }

  function Prec(e: Expr): nat {
    match e
    case Bin(op, _, _) => OpPrec(op)
    case Negate(_) => 3
    case IsNull(_) | IsNotNull(_) => 4
    case LikeEscape(_, _) => 6
    case Cast(_, _) => 9
    case _ => 10
  }

  /** Comparisons and LIKE do not chain. */
  predicate Chains(n: nat) { n != 5 && n != 6 }

  // ---------------------------------------------------------------------------
  // Parsing
  // ---------------------------------------------------------------------------

  type Parsed = Option<(Expr, seq<Token>)>

  /** Reads one expression whose operators bind at least as tightly as `min`. */
  function Parse(ts: seq<Token>, min: nat): (r: Parsed)
    ensures r.Some? ==> |r.value.1| < |ts|
    decreases |ts|, 2
  {
    var p := Prefix(ts, min);
    if p.None? then None else Tail(p.value.0, p.value.1, min)
  }

  function Prefix(ts: seq<Token>, min: nat): (r: Parsed)
    ensures r.Some? ==> |r.value.1| < |ts|
    decreases |ts|, 1
  {
    if ts == [] then None
    else
      var rest := ts[1..];
      match ts[0]
      case TrueT => Some((Literal(true), rest))
      case FalseT => Some((Literal(false), rest))
      case ColumnT(c) => Some((Col(c), rest))
      case ProjectT => Some((Project, rest))
      case AttributesT => Some((Attributes, rest))
      case ParamT(n) => Some((Param(n), rest))
      case NumberLit => Some((NumberName, rest))
      case LParen => (match Closed(rest) case None => None case Some((e, r)) => Some((Paren(e), r)))
      case AnyT => (match Called(rest) case None => None case Some((e, r)) => Some((AnyOf(e), r)))
      case TypeofT => (match Called(rest) case None => None case Some((e, r)) => Some((Typeof(e), r)))
      case NotT =>
        if min > 3 then None
        else (match Parse(rest, 3) case None => None case Some((e, r)) => Some((Negate(e), r)))
      case CoalesceT => CoalesceArgs(rest)
      case CaseT => CaseBody(rest)
      case _ => None
  }

  /** `e )` */
  function Closed(ts: seq<Token>): (r: Parsed)
    ensures r.Some? ==> |r.value.1| < |ts|
    decreases |ts|, 3
  {
    match Parse(ts, 0)
    case None => None
    case Some((e, r)) => if r != [] && r[0] == RParen then Some((e, r[1..])) else None
  }

  /** `( e )` */
  function Called(ts: seq<Token>): (r: Parsed)
    ensures r.Some? ==> |r.value.1| < |ts|
    decreases |ts|, 0
  {
    if ts != [] && ts[0] == LParen then Closed(ts[1..]) else None
  }

  /** `e` and then the given token. */
  function Until(ts: seq<Token>, stop: Token): (r: Parsed)
    ensures r.Some? ==> |r.value.1| < |ts|
    decreases |ts|, 3
  {
    match Parse(ts, 0)
    case None => None
    case Some((e, r)) => if r != [] && r[0] == stop then Some((e, r[1..])) else None
  }

  function CoalesceArgs(ts: seq<Token>): (r: Parsed)
    ensures r.Some? ==> |r.value.1| < |ts|
    decreases |ts|, 0
  {
    if ts == [] || ts[0] != LParen then None
    else
      match Until(ts[1..], Comma)
      case None => None
      case Some((a, r1)) =>
        match Until(r1, Comma)
        case None => None
        case Some((b, r2)) =>
          match Closed(r2)
          case None => None
          case Some((c, r3)) => Some((Coalesce(a, b, c), r3))
  }

  function CaseBody(ts: seq<Token>): (r: Parsed)
    ensures r.Some? ==> |r.value.1| < |ts|
    decreases |ts|, 0
  {
    if ts == [] || ts[0] != WhenT then None
    else
      match Until(ts[1..], ThenT)
      case None => None
      case Some((c, r1)) =>
        match Until(r1, EndT)
        case None => None
        case Some((t, r2)) => Some((Case(c, t), r2))
  }

  /** Extends `l` with every operator that binds at least as tightly as `min`, left to right. */
  function Tail(l: Expr, ts: seq<Token>, min: nat): (r: Parsed)
    ensures r.Some? ==> |r.value.1| <= |ts|
    decreases |ts|, 0
  {
    if ts == [] || Binding(ts[0]) == 0 || Binding(ts[0]) < min then Some((l, ts))
    else if !Chains(Binding(ts[0])) && Prec(l) == Binding(ts[0]) then None
    else
      var rest := ts[1..];
      match ts[0]
      case CastT(ty) => Tail(Cast(l, ty), rest, min)
      case IsNullT => Tail(IsNull(l), rest, min)
      case IsNotNullT => Tail(IsNotNull(l), rest, min)
      case LikeT =>
        (match Parse(rest, 7)
         case None => None
         case Some((p, r)) => if r != [] && r[0] == EscapeT then Tail(LikeEscape(l, p), r[1..], min) else None)
      case Infix(op) =>
        (match Parse(rest, OpPrec(op) + 1)
         case None => None
         case Some((e, r)) => Tail(Bin(op, l, e), r, min))
      case _ => None
  }

  // ---------------------------------------------------------------------------
  // Writing, and reading back what was written
  // ---------------------------------------------------------------------------

  /** Plain concatenation: parentheses appear only where the expression says so. */
  function Render(e: Expr): seq<Token> {
    match e
    case Col(c) => [ColumnT(c)]
    case Project => [ProjectT]
    case Attributes => [AttributesT]
    case Param(n) => [ParamT(n)]
    case Literal(b) => [if b then TrueT else FalseT]
    case NumberName => [NumberLit]
    case Bin(op, l, r) => Render(l) + [Infix(op)] + Render(r)
    case Negate(x) => [NotT] + Render(x)
    case IsNull(x) => Render(x) + [IsNullT]
    case IsNotNull(x) => Render(x) + [IsNotNullT]
    case LikeEscape(x, p) => Render(x) + [LikeT] + Render(p) + [EscapeT]
    case Cast(x, ty) => Render(x) + [CastT(ty)]
    case Paren(x) => [LParen] + Render(x) + [RParen]
    case Coalesce(a, b, c) => [CoalesceT, LParen] + Render(a) + [Comma] + Render(b) + [Comma] + Render(c) + [RParen]
    case AnyOf(x) => [AnyT, LParen] + Render(x) + [RParen]
    case Typeof(x) => [TypeofT, LParen] + Render(x) + [RParen]
    case Case(c, t) => [CaseT, WhenT] + Render(c) + [ThenT] + Render(t) + [EndT]
  }

  /** Every operand binds tightly enough to be read as the operand it was written as. */
  predicate WellBound(e: Expr) {
    match e
    case Bin(op, l, r) =>
      && WellBound(l) && WellBound(r) && Prec(r) > OpPrec(op)
      && (if Chains(OpPrec(op)) then Prec(l) >= OpPrec(op) else Prec(l) > OpPrec(op))
    case Negate(x) => WellBound(x) && Prec(x) >= 3
    case IsNull(x) => WellBound(x) && Prec(x) >= 4
    case IsNotNull(x) => WellBound(x) && Prec(x) >= 4
    case LikeEscape(x, p) => WellBound(x) && WellBound(p) && Prec(x) > 6 && Prec(p) > 6
    case Cast(x, _) => WellBound(x) && Prec(x) >= 9
    case Paren(x) => WellBound(x)
    case Coalesce(a, b, c) => WellBound(a) && WellBound(b) && WellBound(c)
    case AnyOf(x) => WellBound(x)
    case Typeof(x) => WellBound(x)
    case Case(c, t) => WellBound(c) && WellBound(t)
    case _ => true
  }

  /** What follows does not pull at the right edge of an expression of this precedence. */
  predicate Loose(rest: seq<Token>, prec: nat) { rest == [] || Binding(rest[0]) <= prec }

  /** Reading what was written gives back the expression, whatever stands after it. */
  lemma {:induction false} ParseRender(e: Expr, min: nat, rest: seq<Token>)
    requires WellBound(e) && min <= Prec(e) && Loose(rest, Prec(e))
    ensures Parse(Render(e) + rest, min) == Tail(e, rest, min)
    decreases e, 9
  {
    hide Parse, Tail;
    match e
    case Bin(op, l, r) => BinReads(op, l, r, min, rest);
    case Negate(x) => NegateReads(x, min, rest);
    case IsNull(x) => PostfixReads(x, IsNullT, min, rest);
    case IsNotNull(x) => PostfixReads(x, IsNotNullT, min, rest);
    case Cast(x, ty) => PostfixReads(x, CastT(ty), min, rest);
    case LikeEscape(x, p) => LikeReads(x, p, min, rest);
    case Paren(x) => ParenReads(x, min, rest);
    case AnyOf(x) => CallReads(AnyT, x, min, rest);
    case Typeof(x) => CallReads(TypeofT, x, min, rest);
    case Coalesce(a, b, c) => CoalesceReads(a, b, c, min, rest);
    case Case(c, t) => CaseReads(c, t, min, rest);
    case _ => AtomReads(e, min, rest);
  }

  lemma PrefixThenTail(ts: seq<Token>, min: nat, e: Expr, rest: seq<Token>)
    requires Prefix(ts, min) == Some((e, rest))
    ensures Parse(ts, min) == Tail(e, rest, min)
  {
    hide Prefix, Tail;
  }

  lemma LikeStep(l: Expr, ts: seq<Token>, min: nat, p: Expr, rest: seq<Token>)
    requires ts != [] && ts[0] == LikeT && min <= 6 && Prec(l) > 6
    requires Parse(ts[1..], 7) == Some((p, [EscapeT] + rest))
    ensures Tail(l, ts, min) == Tail(LikeEscape(l, p), rest, min)
  {
    hide Parse;
    assert ([EscapeT] + rest)[1..] == rest;
  }

  lemma AtomReads(e: Expr, min: nat, rest: seq<Token>)
    requires e.Col? || e.Project? || e.Attributes? || e.Param? || e.Literal? || e.NumberName?
    ensures Parse(Render(e) + rest, min) == Tail(e, rest, min)
  {
    hide Parse, Tail;
    assert (Render(e) + rest)[0] == Render(e)[0] && (Render(e) + rest)[1..] == rest;
    PrefixThenTail(Render(e) + rest, min, e, rest);
  }

  lemma {:induction false} BinReads(op: Op, l: Expr, r: Expr, min: nat, rest: seq<Token>)
    requires WellBound(Bin(op, l, r)) && min <= OpPrec(op) && Loose(rest, OpPrec(op))
    ensures Parse(Render(Bin(op, l, r)) + rest, min) == Tail(Bin(op, l, r), rest, min)
    decreases Bin(op, l, r), 0
  {
    hide Parse, Tail, Render, WellBound, Prec;
    var after := [Infix(op)] + (Render(r) + rest);
    BinParts(op, l, r, rest);
    ParseRender(l, min, after);
    assert after[1..] == Render(r) + rest;
    ParseRender(r, OpPrec(op) + 1, rest);
    LooseTail(r, rest, OpPrec(op));
    BinStep(op, l, r, after, min, rest);
  }

  lemma BinParts(op: Op, l: Expr, r: Expr, rest: seq<Token>)
    requires WellBound(Bin(op, l, r))
    ensures Render(Bin(op, l, r)) + rest == Render(l) + ([Infix(op)] + (Render(r) + rest))
    ensures WellBound(l) && WellBound(r) && OpPrec(op) <= Prec(l) && OpPrec(op) < Prec(r)
    ensures Chains(OpPrec(op)) || Prec(l) != OpPrec(op)
  {
    hide Prec;
    Assoc(Render(l), [Infix(op)], Render(r));
    Assoc(Render(l), [Infix(op)] + Render(r), rest);
    Assoc([Infix(op)], Render(r), rest);
  }

  lemma LooseTail(e: Expr, ts: seq<Token>, prec: nat)
    requires Loose(ts, prec)
    ensures Tail(e, ts, prec + 1) == Some((e, ts))
  {
  }

  lemma BinStep(op: Op, l: Expr, r: Expr, ts: seq<Token>, min: nat, rest: seq<Token>)
    requires ts != [] && ts[0] == Infix(op) && min <= OpPrec(op) && (Chains(OpPrec(op)) || Prec(l) != OpPrec(op))
    requires Parse(ts[1..], OpPrec(op) + 1) == Some((r, rest))
    ensures Tail(l, ts, min) == Tail(Bin(op, l, r), rest, min)
  {
    hide Parse;
  }

  lemma {:induction false} NegateReads(x: Expr, min: nat, rest: seq<Token>)
    requires WellBound(Negate(x)) && min <= 3 && Loose(rest, 3)
    ensures Parse(Render(Negate(x)) + rest, min) == Tail(Negate(x), rest, min)
    decreases Negate(x), 0
  {
    hide Parse, Tail, Prefix, Render, Prec;
    NegateParts(x, rest);
    ParseRender(x, 3, rest);
    NegateTail(x, rest);
    NegatePrefix(Render(x) + rest, min, x, rest);
    PrefixThenTail([NotT] + (Render(x) + rest), min, Negate(x), rest);
  }

  lemma NegateParts(x: Expr, rest: seq<Token>)
    ensures Render(Negate(x)) + rest == [NotT] + (Render(x) + rest)
  {
    Assoc([NotT], Render(x), rest);
  }

  lemma NegateTail(x: Expr, rest: seq<Token>)
    requires Loose(rest, 3)
    ensures Tail(x, rest, 3) == Some((x, rest))
  {
  }

  lemma NegatePrefix(inner: seq<Token>, min: nat, x: Expr, rest: seq<Token>)
    requires min <= 3 && Parse(inner, 3) == Some((x, rest))
    ensures Prefix([NotT] + inner, min) == Some((Negate(x), rest))
  {
    hide Parse;
    assert ([NotT] + inner)[1..] == inner;
  }

  function Postfixed(x: Expr, t: Token): Expr {
    match t
    case CastT(ty) => Cast(x, ty)
    case IsNullT => IsNull(x)
    case _ => IsNotNull(x)
  }

  lemma {:induction false} PostfixReads(x: Expr, t: Token, min: nat, rest: seq<Token>)
    requires t.IsNullT? || t.IsNotNullT? || t.CastT?
    requires WellBound(x) && min <= Binding(t) <= Prec(x)
    ensures Parse(Render(x) + [t] + rest, min) == Tail(Postfixed(x, t), rest, min)
    decreases x, 10
  {
    assert Render(x) + [t] + rest == Render(x) + ([t] + rest);
    ParseRender(x, min, [t] + rest);
    assert ([t] + rest)[1..] == rest;
  }

  lemma {:induction false} LikeReads(x: Expr, p: Expr, min: nat, rest: seq<Token>)
    requires WellBound(LikeEscape(x, p)) && min <= 6
    ensures Parse(Render(LikeEscape(x, p)) + rest, min) == Tail(LikeEscape(x, p), rest, min)
    decreases LikeEscape(x, p), 0
  {
    hide Parse, Tail, Render, Prec;
    var after := [LikeT] + (Render(p) + ([EscapeT] + rest));
    LikeParts(x, p, rest);
    ParseRender(x, min, after);
    assert after[1..] == Render(p) + ([EscapeT] + rest);
    ParseRender(p, 7, [EscapeT] + rest);
    StopTail(p, [EscapeT] + rest, 7);
    LikeStep(x, after, min, p, rest);
  }

  lemma LikeParts(x: Expr, p: Expr, rest: seq<Token>)
    ensures Render(LikeEscape(x, p)) + rest == Render(x) + ([LikeT] + (Render(p) + ([EscapeT] + rest)))
  {
    Assoc(Render(x), [LikeT], Render(p) + ([EscapeT] + rest));
    Assoc(Render(x) + [LikeT], Render(p), [EscapeT] + rest);
    Assoc(Render(x) + [LikeT] + Render(p), [EscapeT], rest);
  }

  lemma StopTail(e: Expr, ts: seq<Token>, min: nat)
    requires ts != [] && Binding(ts[0]) == 0
    ensures Tail(e, ts, min) == Some((e, ts))
  {
  }

  /** An expression that ends at a token no operator claims. */
  lemma {:induction false} StopReads(x: Expr, stop: Token, rest: seq<Token>)
    requires WellBound(x) && Binding(stop) == 0
    ensures Until(Render(x) + ([stop] + rest), stop) == Some((x, rest))
    ensures stop == RParen ==> Closed(Render(x) + ([stop] + rest)) == Some((x, rest))
    decreases x, 10
  {
    ParseRender(x, 0, [stop] + rest);
    assert ([stop] + rest)[1..] == rest;
    assert Parse(Render(x) + ([stop] + rest), 0) == Some((x, [stop] + rest));
  }

  lemma {:induction false} ParenReads(x: Expr, min: nat, rest: seq<Token>)
    requires WellBound(x)
    ensures Parse(Render(Paren(x)) + rest, min) == Tail(Paren(x), rest, min)
    decreases Paren(x), 0
  {
    hide Parse, Tail, Until, Closed;
    var ts := [LParen] + (Render(x) + ([RParen] + rest));
    StopReads(x, RParen, rest);
    assert Render(Paren(x)) + rest == ts;
    assert ts[0] == LParen && ts[1..] == Render(x) + ([RParen] + rest);
    PrefixThenTail(ts, min, Paren(x), rest);
  }

  lemma {:induction false} CallReads(t: Token, x: Expr, min: nat, rest: seq<Token>)
    requires t.AnyT? || t.TypeofT?
    requires WellBound(x)
    ensures var e := if t.AnyT? then AnyOf(x) else Typeof(x);
            Parse(Render(e) + rest, min) == Tail(e, rest, min)
    decreases x, 11
  {
    hide Parse, Tail, Until, Closed, Prefix;
    var e := if t.AnyT? then AnyOf(x) else Typeof(x);
    var inner := Render(x) + ([RParen] + rest);
    StopReads(x, RParen, rest);
    assert Render(e) + rest == [t, LParen] + inner;
    CallPrefix(t, inner, min, x, rest);
    PrefixThenTail([t, LParen] + inner, min, e, rest);
  }

  lemma CallPrefix(t: Token, inner: seq<Token>, min: nat, x: Expr, rest: seq<Token>)
    requires (t.AnyT? || t.TypeofT?) && Closed(inner) == Some((x, rest))
    ensures Prefix([t, LParen] + inner, min) == Some((if t.AnyT? then AnyOf(x) else Typeof(x), rest))
  {
    hide Parse, Closed;
    var ts := [t, LParen] + inner;
    assert ts[1..] == [LParen] + inner && ts[1..][1..] == inner;
  }

  /** The tokens between a call's name and what follows it. */
  function CoalesceTokens(a: Expr, b: Expr, c: Expr, rest: seq<Token>): seq<Token> {
    [LParen] + (Render(a) + ([Comma] + (Render(b) + ([Comma] + (Render(c) + ([RParen] + rest))))))
  }

  lemma {:induction false} CoalesceReads(a: Expr, b: Expr, c: Expr, min: nat, rest: seq<Token>)
    requires WellBound(Coalesce(a, b, c))
    ensures Parse(Render(Coalesce(a, b, c)) + rest, min) == Tail(Coalesce(a, b, c), rest, min)
    decreases Coalesce(a, b, c), 1
  {
    hide Parse, Tail, CoalesceArgs, CoalesceTokens, Render;
    var ts := [CoalesceT] + CoalesceTokens(a, b, c, rest);
    CoalesceRendered(a, b, c, rest);
    assert ts[1..] == CoalesceTokens(a, b, c, rest);
    CoalesceArgsRead(a, b, c, rest);
    PrefixThenTail(ts, min, Coalesce(a, b, c), rest);
  }

  lemma CoalesceRendered(a: Expr, b: Expr, c: Expr, rest: seq<Token>)
    ensures Render(Coalesce(a, b, c)) + rest == [CoalesceT] + CoalesceTokens(a, b, c, rest)
  {
    var r3 := [RParen] + rest;
    var r2 := [Comma] + (Render(c) + r3);
    var r1 := [Comma] + (Render(b) + r2);
    var l1 := [CoalesceT, LParen] + Render(a);
    var l2 := l1 + [Comma] + Render(b);
    var l3 := l2 + [Comma] + Render(c);
    Assoc(l3, [RParen], rest);
    Assoc(l2 + [Comma], Render(c), r3);
    Assoc(l2, [Comma], Render(c) + r3);
    Assoc(l1 + [Comma], Render(b), r2);
    Assoc(l1, [Comma], Render(b) + r2);
    Assoc([CoalesceT, LParen], Render(a), r1);
    Assoc([CoalesceT], [LParen], Render(a) + r1);
  }

  lemma {:induction false} CoalesceArgsRead(a: Expr, b: Expr, c: Expr, rest: seq<Token>)
    requires WellBound(a) && WellBound(b) && WellBound(c)
    ensures CoalesceArgs(CoalesceTokens(a, b, c, rest)) == Some((Coalesce(a, b, c), rest))
    decreases Coalesce(a, b, c), 0
  {
    hide Parse, Tail, Until, Closed, Render;
    var r2 := Render(c) + ([RParen] + rest);
    var r1 := Render(b) + ([Comma] + r2);
    assert CoalesceTokens(a, b, c, rest)[1..] == Render(a) + ([Comma] + r1);
    StopReads(a, Comma, r1);
    StopReads(b, Comma, r2);
    StopReads(c, RParen, rest);
  }

  function CaseTokens(c: Expr, t: Expr, rest: seq<Token>): seq<Token> {
    [WhenT] + (Render(c) + ([ThenT] + (Render(t) + ([EndT] + rest))))
  }

  lemma {:induction false} CaseReads(c: Expr, t: Expr, min: nat, rest: seq<Token>)
    requires WellBound(Case(c, t))
    ensures Parse(Render(Case(c, t)) + rest, min) == Tail(Case(c, t), rest, min)
    decreases Case(c, t), 1
  {
    hide Parse, Tail, CaseBody;
    var ts := Render(Case(c, t)) + rest;
    assert ts == [CaseT] + CaseTokens(c, t, rest);
    assert ts[1..] == CaseTokens(c, t, rest);
    CaseBodyReads(c, t, rest);
    PrefixThenTail(ts, min, Case(c, t), rest);
  }

  lemma {:induction false} CaseBodyReads(c: Expr, t: Expr, rest: seq<Token>)
    requires WellBound(c) && WellBound(t)
    ensures CaseBody(CaseTokens(c, t, rest)) == Some((Case(c, t), rest))
    decreases Case(c, t), 0
  {
    hide Parse, Tail, Until, Render;
    var r1 := Render(t) + ([EndT] + rest);
    assert CaseTokens(c, t, rest)[1..] == Render(c) + ([ThenT] + r1);
    StopReads(c, ThenT, r1);
    StopReads(t, EndT, rest);
  }

  // ---------------------------------------------------------------------------
  // Evaluation
  // ---------------------------------------------------------------------------

  datatype V =
    | VNull | VBool(b: bool) | VText(s: string) | VNum(n: real) | VTime(t: int)
    | VJson(j: Json) | VPath(p: seq<string>) | VList(items: seq<V>)
    | VError  // the database would refuse the statement

  function OfTri(t: Tri): V { if t == T then VBool(true) else if t == F then VBool(false) else VNull }

  function ToTri(v: V): Option<Tri> {
    match v
    case VBool(b) => Some(Truth(b))
    case VNull => Some(U)
    case _ => None
  }

  function OfCell(c: Cell): V {
    match c
    case CText(s) => VText(s)
    case CNum(n) => VNum(n)
    case CTime(t) => VTime(t)
    case CNull => VNull
  }

  function OfText(t: Option<string>): V { if t.Some? then VText(t.value) else VNull }

  function EqV(a: V, b: V): V {
    match (a, b)
    case (VNull, _) => VNull
    case (_, VNull) => VNull
    case (VText(x), VText(y)) => VBool(x == y)
    case (VNum(x), VNum(y)) => VBool(x == y)
    case (VTime(x), VTime(y)) => VBool(x == y)
    case _ => VError
  }

  function OrderV(o: Order, a: V, b: V, env: Env): V {
    match (a, b)
    case (VNull, _) => VNull
    case (_, VNull) => VNull
    case (VText(x), VText(y)) => VBool(Ordered(o, env.textBefore(x, y), x == y))
    case (VNum(x), VNum(y)) => VBool(Ordered(o, x < y, x == y))
    case (VTime(x), VTime(y)) => VBool(Ordered(o, x < y, x == y))
    case _ => VError
  }

  function Logic(op: Op, a: V, b: V): V {
    if ToTri(a).None? || ToTri(b).None? then VError
    else if op == AndOp then OfTri(And3(ToTri(a).value, ToTri(b).value))
    else OfTri(Or3(ToTri(a).value, ToTri(b).value))
  }

  /** `= ANY(list)`: true on a hit, unknown where a null could have been one, else false. */
  function EqAny(a: V, items: seq<V>): V {
    if items == [] then VBool(false) else Logic(OrOp, EqAny(a, Front(items)), EqV(a, Last(items)))
  }

  function Apply(op: Op, a: V, b: V, env: Env): V {
    match op
    case OrOp | AndOp => Logic(op, a, b)
    case EqOp => if b.VList? then EqAny(a, b.items) else EqV(a, b)
    case LtOp => OrderV(Lt, a, b, env)
    case LteOp => OrderV(Lte, a, b, env)
    case GtOp => OrderV(Gt, a, b, env)
    case GteOp => OrderV(Gte, a, b, env)
    case PathText => if a.VJson? && b.VPath? then OfText(LeafText(Walk(a.j, b.p), env)) else VError
    case PathJson =>
      if a.VJson? && b.VPath? then
        var leaf := Walk(a.j, b.p);
        if leaf.Some? then VJson(leaf.value) else VNull
      else VError
    case KeyText => if a.VJson? && b.VText? then OfText(LeafText(Walk(a.j, [b.s]), env)) else VError
    case Holds => if a.VJson? && b.VJson? then VBool(Contains(a.j, b.j)) else VError
    case HasKey => if a.VJson? && a.j.JObj? && b.VText? then VBool(b.s in a.j.fields) else VError
  }

  function CastV(v: V, ty: Type, env: Env): V {
    match (ty, v)
    case (_, VNull) => VNull
    case (TextT, VText(_)) => v
    case (TextT, VNum(n)) => VText(env.numText(n))
    case (TextT, VTime(t)) => VText(env.timeText(t))
    case (TextArrayT, VPath(_)) => v
    case (JsonbT, VJson(_)) => v
    case (NumericT, VNum(_)) => v
    case (NumericT, VText(s)) => VNum(env.castNumber(s))
    case (NumericT, VJson(JNum(n))) => VNum(n)
    case (UuidT, VText(_)) => v
    case _ => VError
  }

  function TypeofV(v: V): V {
    match v
    case VNull => VNull
    case VJson(j) =>
      VText(match j case JNull => "null" case JBool(_) => "boolean" case JNum(_) => "number"
                    case JStr(_) => "string" case JArr(_) => "array" case JObj(_) => "object")
    case _ => VError
  }

  function Eval(e: Expr, ps: seq<V>, row: Row, env: Env): V {
    match e
    case Col(c) => OfCell(ColumnCell(c, row))
    case Project => VText(row.project)
    case Attributes => VJson(JObj(row.attributes))
    case Param(n) => if 1 <= n <= |ps| then ps[n - 1] else VError
    case Literal(b) => VBool(b)
    case NumberName => VText("number")
    case Bin(op, l, r) => Apply(op, Eval(l, ps, row, env), Eval(r, ps, row, env), env)
    case Negate(x) => (match ToTri(Eval(x, ps, row, env)) case None => VError case Some(t) => OfTri(Not3(t)))
    case IsNull(x) => var v := Eval(x, ps, row, env); if v == VError then VError else VBool(v == VNull)
    case IsNotNull(x) => var v := Eval(x, ps, row, env); if v == VError then VError else VBool(v != VNull)
    case LikeEscape(x, p) =>
      (match (Eval(x, ps, row, env), Eval(p, ps, row, env))
       case (VNull, VText(_)) => VNull
       case (VText(s), VText(pattern)) => VBool(Like.Matches(pattern, s))
       case _ => VError)
    case Cast(x, ty) => CastV(Eval(x, ps, row, env), ty, env)
    case Paren(x) => Eval(x, ps, row, env)
    case Coalesce(a, b, c) =>
      var x, y := Eval(a, ps, row, env), Eval(b, ps, row, env);
      if x != VNull then x else if y != VNull then y else Eval(c, ps, row, env)
    case AnyOf(x) => Eval(x, ps, row, env)
    case Typeof(x) => TypeofV(Eval(x, ps, row, env))
    case Case(c, t) => if Eval(c, ps, row, env) == VBool(true) then Eval(t, ps, row, env) else VNull
  }
}
