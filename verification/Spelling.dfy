/** The compiler's characters read back into its tokens, by the words and signs of SQL alone. */
module Spelling {
  import opened Sequences
  import opened Filters
  import opened Sql
  import opened Splice
  import Json

  /** The token, if the text opens with this word. */
  function If(w: string, t: Token, s: string): Option<(Token, nat)> { if w <= s then Some((t, |w|)) else None }

  /** The character that far in, or a character no token has. */
  function Nth(s: string, i: nat): char { if i < |s| then s[i] else '~' }

  function ReadName(s: string): Option<(Token, nat)> {
    if Nth(s, 1) == 'p' then If("\"project_id\"", ProjectT, s)
    else if Nth(s, 15) == 'a' then If("\"log_entries\".\"attributes\"", AttributesT, s)
    else if Nth(s, 15) == 't' then If("\"log_entries\".\"time\"", ColumnT(Time), s)
    else if Nth(s, 15) == 'n' then If("\"log_entries\".\"name\"", ColumnT(Name), s)
    else if Nth(s, 15) == 's' then If("\"log_entries\".\"severity\"", ColumnT(Severity), s)
    else if Nth(s, 15) == 'e' then If("\"log_entries\".\"entry_id\"", ColumnT(EntryId), s)
    else If("\"log_entries\".\"ingested_at\"", ColumnT(IngestedAt), s)
  }

  function ReadCast(s: string): Option<(Token, nat)> {
    if Nth(s, 2) == 'j' then If("::jsonb", CastT(JsonbT), s)
    else if Nth(s, 2) == 'n' then If("::numeric", CastT(NumericT), s)
    else if Nth(s, 2) == 'u' then If("::uuid", CastT(UuidT), s)
    else if Nth(s, 6) == '[' then If("::text[]", CastT(TextArrayT), s)
    else If("::text", CastT(TextT), s)
  }

  function ReadSign(s: string): Option<(Token, nat)> {
    var a, b := Nth(s, 1), Nth(s, 2);
    if a == '=' then If(" = ", Infix(EqOp), s)
    else if a == '<' then if b == '=' then If(" <= ", Infix(LteOp), s) else If(" < ", Infix(LtOp), s)
    else if a == '>' then if b == '=' then If(" >= ", Infix(GteOp), s) else If(" > ", Infix(GtOp), s)
    else if a == '#' then if Nth(s, 3) == '>' then If(" #>> ", Infix(PathText), s) else If(" #> ", Infix(PathJson), s)
    else if a == '-' then If(" ->> ", Infix(KeyText), s)
    else if a == '@' then If(" @> ", Infix(Holds), s)
    else if a == '?' then If(" ? ", Infix(HasKey), s)
    else ReadSpaced(s)
  }

  function ReadSpaced(s: string): Option<(Token, nat)> {
    var a := Nth(s, 1);
    if a == 'O' then If(" OR ", Infix(OrOp), s)
    else if a == 'A' then If(" AND ", Infix(AndOp), s)
    else if a == 'L' then If(" LIKE ", LikeT, s)
    else if a == 'W' then If(" WHEN ", WhenT, s)
    else if a == 'T' then If(" THEN ", ThenT, s)
    else if a == 'I' then if Nth(s, 5) == 'O' then If(" IS NOT NULL", IsNotNullT, s) else If(" IS NULL", IsNullT, s)
    else if Nth(s, 2) == 'S' then If(" ESCAPE '\\'", EscapeT, s) else If(" END", EndT, s)
  }

  function ReadWord(s: string): Option<(Token, nat)> {
    var a := Nth(s, 0);
    if a == 'N' then If("NOT ", NotT, s)
    else if a == 'T' then If("TRUE", TrueT, s)
    else if a == 'F' then If("FALSE", FalseT, s)
    else if a == 'A' then If("ANY", AnyT, s)
    else if a == 'C' then If("CASE", CaseT, s)
    else if a == 'c' then If("coalesce", CoalesceT, s)
    else if a == 'j' then If("jsonb_typeof", TypeofT, s)
    else If("'number'", NumberLit, s)
  }

  /** The first token of a text, and how many characters it takes up. */
  function ReadToken(s: string): Option<(Token, nat)> {
    var a := Nth(s, 0);
    if a == '(' then If("(", LParen, s)
    else if a == ')' then If(")", RParen, s)
    else if a == ',' then If(", ", Comma, s)
    else if a == '$' then
      var k := Run(s[1..]);
      if k == 0 then None else Some((ParamT(Json.Index(s[1..1 + k])), 1 + k))
    else if a == '"' then ReadName(s)
    else if a == ':' then ReadCast(s)
    else if a == ' ' then ReadSign(s)
    else ReadWord(s)
  }

  /** All of a text, token by token. */
  function ReadTokens(s: string): Option<seq<Token>>
    decreases |s|
  {
    if s == [] then Some([])
    else
      match ReadToken(s)
      case None => None
      case Some((t, n)) =>
        if n == 0 || n > |s| then None
        else
          match ReadTokens(s[n..])
          case None => None
          case Some(more) => Some([t] + more)
  }

  // ---------------------------------------------------------------------------
  // That it does
  // ---------------------------------------------------------------------------

  /** The token is read off the front of its own characters, whatever stands after them. */
  ghost predicate ReadsBack(t: Token, rest: string) { ReadToken(Chars(t) + rest) == Some((t, |Chars(t)|)) }

  function Qualified(c: Column): string {
    match c
    case Time => "\"log_entries\".\"time\""
    case Name => "\"log_entries\".\"name\""
    case Severity => "\"log_entries\".\"severity\""
    case EntryId => "\"log_entries\".\"entry_id\""
    case IngestedAt => "\"log_entries\".\"ingested_at\""
  }

  lemma ColumnSpelt(c: Column)
    ensures Chars(ColumnT(c)) == Qualified(c)
  {
  }

  lemma NameBack(c: Column, rest: string)
    ensures ReadName(Qualified(c) + rest) == Some((ColumnT(c), |Qualified(c)|)) && Nth(Qualified(c) + rest, 0) == '"'
  {
  }

  lemma ColumnBack(c: Column, rest: string)
    ensures ReadsBack(ColumnT(c), rest)
  {
    hide Chars, Qualified, ReadName;
    ColumnSpelt(c);
    NameBack(c, rest);
  }

  lemma CastBack(ty: Type, rest: string)
    requires rest == [] || rest[0] != '['
    ensures ReadsBack(CastT(ty), rest)
  {
    match ty
    case TextT => assert |"::text"| == 6;
    case TextArrayT => assert |"::text[]"| == 8;
    case JsonbT => assert |"::jsonb"| == 7;
    case NumericT => assert |"::numeric"| == 9;
    case UuidT => assert |"::uuid"| == 6;
  }

  lemma OpBack(op: Op, rest: string)
    ensures ReadsBack(Infix(op), rest)
  {
    match op
    case OrOp => assert |" OR "| == 4;
    case AndOp => assert |" AND "| == 5;
    case EqOp => assert |" = "| == 3;
    case LtOp => assert |" < "| == 3;
    case LteOp => assert |" <= "| == 4;
    case GtOp => assert |" > "| == 3;
    case GteOp => assert |" >= "| == 4;
    case PathText => assert |" #>> "| == 5;
    case PathJson => assert |" #> "| == 4;
    case KeyText => assert |" ->> "| == 5;
    case Holds => assert |" @> "| == 4;
    case HasKey => assert |" ? "| == 3;
  }

  lemma SpacedBack(t: Token, rest: string)
    requires t in {IsNullT, IsNotNullT, LikeT, EscapeT, WhenT, ThenT, EndT}
    ensures ReadsBack(t, rest)
  {
    match t
    case IsNullT => assert |" IS NULL"| == 8;
    case IsNotNullT => assert |" IS NOT NULL"| == 12;
    case LikeT => assert |" LIKE "| == 6;
    case EscapeT => assert |" ESCAPE '\\'"| == 11;
    case WhenT => assert |" WHEN "| == 6;
    case ThenT => assert |" THEN "| == 6;
    case EndT => assert |" END"| == 4;
  }

  lemma WordBack(t: Token, rest: string)
    requires t in {NotT, TrueT, FalseT, AnyT, CaseT, CoalesceT, TypeofT, NumberLit}
    ensures ReadsBack(t, rest)
  {
    match t
    case NotT => assert |"NOT "| == 4;
    case TrueT => assert |"TRUE"| == 4;
    case FalseT => assert |"FALSE"| == 5;
    case AnyT => assert |"ANY"| == 3;
    case CaseT => assert |"CASE"| == 4;
    case CoalesceT => assert |"coalesce"| == 8;
    case TypeofT => assert |"jsonb_typeof"| == 12;
    case NumberLit => assert |"'number'"| == 8;
  }

  lemma MarkBack(t: Token, rest: string)
    requires t in {LParen, RParen, Comma, ProjectT, AttributesT}
    ensures ReadsBack(t, rest)
  {
    match t
    case ProjectT => assert |"\"project_id\""| == 12;
    case AttributesT => assert |"\"log_entries\".\"attributes\""| == 26;
    case LParen | RParen | Comma =>
  }

  lemma ParamBack(n: nat, rest: string)
    requires rest == [] || !IsDigit(rest[0])
    ensures ReadsBack(ParamT(n), rest)
  {
    hide Decimal, Json.Index, ReadName, ReadCast, ReadSign, ReadWord, Run;
    var s := "$" + Decimal(n) + rest;
    assert s[1..] == Decimal(n) + rest;
    RunIs(s[1..], |Decimal(n)|);
    assert s[1..1 + |Decimal(n)|] == Decimal(n);
    DecimalReads(n);
  }

  /** No token opens with what could run on from a placeholder or a cast. */
  lemma OpensClean(ts: seq<Token>)
    ensures TextOf(ts) == [] || (!IsDigit(TextOf(ts)[0]) && TextOf(ts)[0] != '[')
  {
    hide Chars;
    if ts != [] {
      CharsClean(ts[0]);
      NoBracket(ts[0]);
    }
  }

  lemma NoBracket(t: Token)
    ensures Chars(t) != [] && Chars(t)[0] != '['
  {
    hide Decimal;
  }

  lemma TokenBack(t: Token, rest: string)
    requires rest == [] || (!IsDigit(rest[0]) && rest[0] != '[')
    ensures ReadsBack(t, rest)
  {
    hide ReadsBack;
    match t
    case ColumnT(c) => ColumnBack(c, rest);
    case CastT(ty) => CastBack(ty, rest);
    case Infix(op) => OpBack(op, rest);
    case ParamT(n) => ParamBack(n, rest);
    case IsNullT | IsNotNullT | LikeT | EscapeT | WhenT | ThenT | EndT => SpacedBack(t, rest);
    case NotT | TrueT | FalseT | AnyT | CaseT | CoalesceT | TypeofT | NumberLit => WordBack(t, rest);
    case _ => MarkBack(t, rest);
  }

  /**
   * The characters the compiler emits, read by the words and signs of SQL, are the
   * tokens it means, each exactly once and in order, with nothing left over.
   */
  lemma {:induction false} TextIsTokens(ts: seq<Token>)
    ensures ReadTokens(TextOf(ts)) == Some(ts)
    decreases |ts|
  {
    if ts != [] {
      hide ReadToken, Chars;
      var t, rest := ts[0], TextOf(ts[1..]);
      TextIsTokens(ts[1..]);
      OpensClean(ts[1..]);
      TokenBack(t, rest);
      CharsClean(t);
      assert (Chars(t) + rest)[|Chars(t)|..] == rest;
      assert ts == [t] + ts[1..];
    }
  }
}
