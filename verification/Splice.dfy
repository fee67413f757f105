/**
 * A compiled filter put into a statement another binder numbers: its text is
 * split at the placeholders and every value is bound again. Here the text is
 * characters, and a placeholder is whatever the database's own lexer takes for
 * one: a dollar sign and as many digits as follow it.
 */
module Splice {
  import opened Sequences
  import opened Json
  import opened Filters
  import opened Sql
  import opened Compiler

  /** An instantiated statement: plain characters, and values where placeholders stood. */
  datatype Piece = C(c: char) | P(v: Option<V>)

  // ---------------------------------------------------------------------------
  // Characters
  // ---------------------------------------------------------------------------

  predicate IsDigit(c: char) { '0' <= c <= '9' }

  function Decimal(n: nat): (s: string)
    ensures s != [] && Digits(s)
  {
    if n < 10 then [(('0' as int) + n) as char] else Decimal(n / 10) + [(('0' as int) + n % 10) as char]
  }

  lemma {:induction false} DecimalReads(n: nat)
    ensures Index(Decimal(n)) == n
  {
    if n >= 10 {
      DecimalReads(n / 10);
      assert Front(Decimal(n)) == Decimal(n / 10);
    }
  }

  /** How many digits a text opens with. */
  function Run(s: string): (k: nat)
    ensures k <= |s| && (forall i | 0 <= i < k :: IsDigit(s[i])) && (k < |s| ==> !IsDigit(s[k]))
  {
    if s == [] || !IsDigit(s[0]) then 0 else 1 + Run(s[1..])
  }

  lemma {:induction false} RunIs(s: string, k: nat)
    requires k <= |s| && (forall i | 0 <= i < k :: IsDigit(s[i])) && (k < |s| ==> !IsDigit(s[k]))
    ensures Run(s) == k
    decreases k
  {
    if k > 0 { RunIs(s[1..], k - 1); }
  }

  predicate PlaceholderAt(text: string, i: nat)
  {
    i < |text| && text[i] == '$' && Run(text[i + 1..]) > 0
  }

  function ValueAt(params: seq<V>, n: nat): Option<V> { if 1 <= n <= |params| then Some(params[n - 1]) else None }

  /** The placeholder at `i`: how many digits it has, and the value it stands for. */
  function Bound(text: string, i: nat, params: seq<V>): Option<V>
    requires PlaceholderAt(text, i)
  {
    ValueAt(params, Index(text[i + 1..i + 1 + Run(text[i + 1..])]))
  }

  /** Just past the placeholder at `i`. */
  function After(text: string, i: nat): (r: nat)
    requires PlaceholderAt(text, i)
    ensures i < r <= |text| && (r < |text| ==> !IsDigit(text[r]))
  {
    var k := Run(text[i + 1..]);
    assert i + 1 + k < |text| ==> text[i + 1..][k] == text[i + 1 + k];
    i + 1 + k
  }

  /** What the database reads: maximal runs of digits after a dollar sign, everything else as it stands. */
  function Read(text: string, params: seq<V>): seq<Piece>
    decreases |text|
  {
    if text == [] then []
    else if PlaceholderAt(text, 0) then [P(Bound(text, 0, params))] + Read(text[1 + Run(text[1..])..], params)
    else [C(text[0])] + Read(text[1..], params)
  }

  function Raws(s: string): seq<Piece> { seq(|s|, i requires 0 <= i < |s| => C(s[i])) }

  lemma {:induction false} ReadRaw(s: string, rest: string, params: seq<V>)
    requires forall i | 0 <= i < |s| :: !PlaceholderAt(s + rest, i)
    ensures Read(s + rest, params) == Raws(s) + Read(rest, params)
    decreases |s|
  {
    if s == [] {
      assert s + rest == rest;
    } else {
      assert (s + rest)[1..] == s[1..] + rest;
      forall i | 0 <= i < |s[1..]|
        ensures !PlaceholderAt(s[1..] + rest, i)
      {
        assert (s[1..] + rest)[i + 1..] == (s + rest)[i + 2..];
        assert !PlaceholderAt(s + rest, i + 1);
      }
      ReadRaw(s[1..], rest, params);
      assert !PlaceholderAt(s + rest, 0);
      assert Raws(s) == [C(s[0])] + Raws(s[1..]);
    }
  }

  lemma ReadPlaceholder(n: nat, rest: string, params: seq<V>)
    requires rest == [] || !IsDigit(rest[0])
    ensures Read("$" + Decimal(n) + rest, params) == [P(ValueAt(params, n))] + Read(rest, params)
  {
    var text := "$" + Decimal(n) + rest;
    assert text[1..] == Decimal(n) + rest;
    RunIs(text[1..], |Decimal(n)|);
    assert text[1..1 + |Decimal(n)|] == Decimal(n) && text[1 + |Decimal(n)|..] == rest;
    DecimalReads(n);
  }

  // ---------------------------------------------------------------------------
  // The compiler's own text
  // ---------------------------------------------------------------------------

  function ColumnName(c: Column): string {
    match c
    case Time => "\"time\""
    case Name => "\"name\""
    case Severity => "\"severity\""
    case EntryId => "\"entry_id\""
    case IngestedAt => "\"ingested_at\""
  }

  function OpText(op: Op): string {
    match op
    case OrOp => " OR "
    case AndOp => " AND "
    case EqOp => " = "
    case LtOp => " < "
    case LteOp => " <= "
    case GtOp => " > "
    case GteOp => " >= "
    case PathText => " #>> "
    case PathJson => " #> "
    case KeyText => " ->> "
    case Holds => " @> "
    case HasKey => " ? "
  }

  function TypeText(ty: Type): string {
    match ty
    case TextT => "::text"
    case TextArrayT => "::text[]"
    case JsonbT => "::jsonb"
    case NumericT => "::numeric"
    case UuidT => "::uuid"
  }

  /** A token's text. Columns are qualified with the table the fragment is spliced into. */
  function Chars(t: Token): string {
    match t
    case LParen => "("
    case RParen => ")"
    case Comma => ", "
    case Infix(op) => OpText(op)
    case NotT => "NOT "
    case TrueT => "TRUE"
    case FalseT => "FALSE"
    case IsNullT => " IS NULL"
    case IsNotNullT => " IS NOT NULL"
    case LikeT => " LIKE "
    case EscapeT => " ESCAPE '\\'"
    case ColumnT(c) => "\"log_entries\"." + ColumnName(c)
    case ProjectT => "\"project_id\""
    case AttributesT => "\"log_entries\".\"attributes\""
    case ParamT(n) => "$" + Decimal(n)
    case CastT(ty) => TypeText(ty)
    case CoalesceT => "coalesce"
    case AnyT => "ANY"
    case CaseT => "CASE"
    case WhenT => " WHEN "
    case ThenT => " THEN "
    case EndT => " END"
    case TypeofT => "jsonb_typeof"
    case NumberLit => "'number'"
  }

  function TextOf(ts: seq<Token>): string { if ts == [] then [] else Chars(ts[0]) + TextOf(ts[1..]) }

  /** The text with each placeholder replaced by the value bound at its position. */
  function Instantiated(ts: seq<Token>, params: seq<V>): seq<Piece> {
    if ts == [] then []
    else (if ts[0].ParamT? then [P(ValueAt(params, ts[0].n))] else Raws(Chars(ts[0]))) + Instantiated(ts[1..], params)
  }

  /** No token but a placeholder has a dollar sign, and none opens with a digit. */
  lemma CharsClean(t: Token)
    ensures !t.ParamT? ==> '$' !in Chars(t)
    ensures Chars(t) != [] && !IsDigit(Chars(t)[0])
  {
    hide Chars;
    match t
    case Infix(_) => NamedClean(t);
    case ColumnT(_) => NamedClean(t);
    case CastT(_) => NamedClean(t);
    case ParamT(_) => NamedClean(t);
    case LParen | RParen | Comma | NotT | TrueT | FalseT | IsNullT | IsNotNullT | LikeT | EscapeT => LogicClean(t);
    case _ => WordsClean(t);
  }

  lemma NamedClean(t: Token)
    requires t.Infix? || t.ColumnT? || t.CastT? || t.ParamT?
    ensures !t.ParamT? ==> '$' !in Chars(t)
    ensures Chars(t) != [] && !IsDigit(Chars(t)[0])
  {
    hide OpText, ColumnName, TypeText;
    match t
    case Infix(op) => OpsClean(op);
    case ColumnT(c) => ColumnsClean(c);
    case CastT(ty) => TypesClean(ty);
    case ParamT(_) =>
  }

  lemma LogicClean(t: Token)
    requires t in {LParen, RParen, Comma, NotT, TrueT, FalseT, IsNullT, IsNotNullT, LikeT, EscapeT}
    ensures '$' !in Chars(t) && Chars(t) != [] && !IsDigit(Chars(t)[0])
  {
  }

  lemma WordsClean(t: Token)
    requires t in {ProjectT, AttributesT, CoalesceT, AnyT, CaseT, WhenT, ThenT, EndT, TypeofT, NumberLit}
    ensures '$' !in Chars(t) && Chars(t) != [] && !IsDigit(Chars(t)[0])
  {
  }

  lemma OpsClean(op: Op)
    ensures '$' !in OpText(op) && OpText(op) != [] && !IsDigit(OpText(op)[0])
  {
  }

  lemma ColumnsClean(c: Column)
    ensures '$' !in ColumnName(c) && ColumnName(c) != []
  {
  }

  lemma TypesClean(ty: Type)
    ensures '$' !in TypeText(ty) && TypeText(ty) != [] && !IsDigit(TypeText(ty)[0])
  {
  }

  lemma TextHead(ts: seq<Token>)
    ensures TextOf(ts) == [] || !IsDigit(TextOf(ts)[0])
  {
    if ts != [] { CharsClean(ts[0]); }
  }

  /** The database reads the compiler's text as the compiler meant it, with any digits after any placeholder. */
  lemma {:induction false} TextReads(ts: seq<Token>, params: seq<V>)
    ensures Read(TextOf(ts), params) == Instantiated(ts, params)
    decreases |ts|
  {
    if ts != [] {
      hide Read, Chars;
      TextReads(ts[1..], params);
      TokenReads(ts[0], ts[1..], params);
    } else {
      assert Read([], params) == [];
    }
  }

  lemma TokenReads(t: Token, rest: seq<Token>, params: seq<V>)
    ensures Read(Chars(t) + TextOf(rest), params) ==
            (if t.ParamT? then [P(ValueAt(params, t.n))] else Raws(Chars(t))) + Read(TextOf(rest), params)
  {
    hide Read, TextOf;
    TextHead(rest);
    if t.ParamT? {
      ReadPlaceholder(t.n, TextOf(rest), params);
    } else {
      CharsClean(t);
      hide Chars;
      ReadRaw(Chars(t), TextOf(rest), params);
    }
  }

  // ---------------------------------------------------------------------------
  // Splitting and binding again
  // ---------------------------------------------------------------------------

  datatype Chunk = Raw(s: string) | Value(v: Option<V>)

  function Pieces(chunks: seq<Chunk>): seq<Piece> {
    if chunks == [] then []
    else Pieces(Front(chunks)) + OfChunk(Last(chunks))
  }

  function OfChunk(c: Chunk): seq<Piece> {
    match c
    case Raw(s) => Raws(s)
    case Value(v) => [P(v)]
  }

  /** The next place a placeholder starts, or the end. */
  method NextPlaceholder(text: string, from: nat) returns (i: nat)
    requires from <= |text|
    ensures from <= i <= |text| && (i < |text| ==> PlaceholderAt(text, i))
    ensures forall j | from <= j < i :: !PlaceholderAt(text, j)
  {
    i := from;
    while i < |text| && !PlaceholderAt(text, i)
      invariant from <= i <= |text|
      invariant forall j | from <= j < i :: !PlaceholderAt(text, j)
    {
      i := i + 1;
    }
  }

  lemma ReadTo(text: string, last: nat, i: nat, params: seq<V>)
    requires last <= i <= |text| && forall j | last <= j < i :: !PlaceholderAt(text, j)
    ensures Read(text[last..], params) == Raws(text[last..i]) + Read(text[i..], params)
  {
    var s, rest := text[last..i], text[i..];
    assert s + rest == text[last..];
    forall k | 0 <= k < |s|
      ensures !PlaceholderAt(s + rest, k)
    {
      assert (s + rest)[k + 1..] == text[last + k + 1..];
      assert !PlaceholderAt(text, last + k);
    }
    ReadRaw(s, rest, params);
  }

  lemma ReadAt(text: string, i: nat, params: seq<V>)
    requires PlaceholderAt(text, i)
    ensures Read(text[i..], params) == [P(Bound(text, i, params))] + Read(text[After(text, i)..], params)
  {
    hide Read;
    var k := Run(text[i + 1..]);
    assert text[i..][1..] == text[i + 1..];
    assert text[i..][1..1 + k] == text[i + 1..i + 1 + k] && text[i..][1 + k..] == text[i + 1 + k..];
    ReadOpens(text[i..], params);
  }

  lemma ReadOpens(text: string, params: seq<V>)
    requires PlaceholderAt(text, 0)
    ensures Read(text, params) == [P(Bound(text, 0, params))] + Read(text[1 + Run(text[1..])..], params)
  {
    hide Bound;
  }

  lemma PiecesAppend(chunks: seq<Chunk>, s: string, v: Option<V>)
    ensures Pieces(chunks + [Raw(s)]) == Pieces(chunks) + Raws(s)
    ensures Pieces(chunks + [Raw(s), Value(v)]) == Pieces(chunks) + Raws(s) + [P(v)]
  {
    assert Front(chunks + [Raw(s)]) == chunks;
    assert Front(chunks + [Raw(s), Value(v)]) == chunks + [Raw(s)];
  }

  /** Raw text with no dollar sign left in it, values between, and no digit right after a value. */
  predicate Tidy(chunks: seq<Chunk>) {
    forall i | 0 <= i < |chunks| ::
      && (chunks[i].Raw? ==> '$' !in chunks[i].s)
      && (chunks[i].Value? ==> i + 1 < |chunks| && chunks[i + 1].Raw? && (chunks[i + 1].s == [] || !IsDigit(chunks[i + 1].s[0])))
  }

  /** Every dollar sign starts a placeholder. */
  predicate OnlyPlaceholders(text: string) { forall i | 0 <= i < |text| && text[i] == '$' :: PlaceholderAt(text, i) }

  method Spliced(text: string, params: seq<V>) returns (chunks: seq<Chunk>)
    ensures Pieces(chunks) == Read(text, params)
    ensures OnlyPlaceholders(text) ==> Tidy(chunks)
    ensures Alternates(chunks)
  {
    hide *;
    chunks := [];
    var last: nat := 0;
    var i := NextPlaceholder(text, 0);
    assert text[0..] == text;
    NothingYet(text, i);
    while i < |text|
      invariant last <= i <= |text| && (i < |text| ==> PlaceholderAt(text, i))
      invariant forall j | last <= j < i :: !PlaceholderAt(text, j)
      invariant Pieces(chunks) + Read(text[last..], params) == Read(text, params)
      invariant OnlyPlaceholders(text) ==> Tidy(chunks + [Raw(text[last..i])])
      invariant Alternates(chunks + [Raw(text[last..i])])
      decreases |text| - i
    {
      var v := Bound(text, i, params);
      PiecesStep(text, chunks, last, i, params);
      ghost var before := chunks + [Raw(text[last..i])];
      assert before + [Value(v)] == chunks + [Raw(text[last..i]), Value(v)];
      chunks := chunks + [Raw(text[last..i]), Value(v)];
      last := After(text, i);
      i := NextPlaceholder(text, last);
      TidyStep(text, before, v, last, i);
    }
    PiecesEnd(text, chunks, last, params);
    assert i == |text| && text[last..i] == text[last..];
    chunks := chunks + [Raw(text[last..])];
  }

  lemma PiecesEnd(text: string, chunks: seq<Chunk>, last: nat, params: seq<V>)
    requires last <= |text| && forall j | last <= j < |text| :: !PlaceholderAt(text, j)
    ensures Pieces(chunks + [Raw(text[last..])]) == Pieces(chunks) + Read(text[last..], params)
  {
    hide Read, Raws, Pieces;
    ReadTo(text, last, |text|, params);
    assert text[last..|text|] == text[last..] && text[|text|..] == [];
    ReadEnd(params);
    PiecesAppend(chunks, text[last..], None);
  }

  lemma PiecesStep(text: string, chunks: seq<Chunk>, last: nat, i: nat, params: seq<V>)
    requires last <= i && PlaceholderAt(text, i) && forall j | last <= j < i :: !PlaceholderAt(text, j)
    ensures var v := Bound(text, i, params);
            Pieces(chunks) + Read(text[last..], params) ==
            Pieces(chunks + [Raw(text[last..i]), Value(v)]) + Read(text[After(text, i)..], params)
  {
    hide Read, Raws, Pieces, Bound, After;
    var v, rest := Bound(text, i, params), Read(text[After(text, i)..], params);
    ReadTo(text, last, i, params);
    ReadAt(text, i, params);
    PiecesAppend(chunks, text[last..i], v);
    Assoc(Raws(text[last..i]), [P(v)], rest);
    Assoc(Pieces(chunks), Raws(text[last..i]), [P(v)]);
    Assoc(Pieces(chunks), Raws(text[last..i]) + [P(v)], rest);
  }

  lemma NothingYet(text: string, i: nat)
    requires i <= |text| && forall j | 0 <= j < i :: !PlaceholderAt(text, j)
    ensures Pieces([]) == [] && (OnlyPlaceholders(text) ==> Tidy([] + [Raw(text[0..i])]))
    ensures Alternates([] + [Raw(text[0..i])])
  {
    if OnlyPlaceholders(text) {
      forall j | 0 <= j < |text[0..i]|
        ensures text[0..i][j] != '$'
      {
        assert !PlaceholderAt(text, j);
      }
    }
  }

  lemma ReadEnd(params: seq<V>)
    ensures Read([], params) == []
  {
  }

  lemma TidyAt(chunks: seq<Chunk>, j: nat)
    requires Tidy(chunks) && j < |chunks| && chunks[j].Value?
    ensures j + 1 < |chunks| && chunks[j + 1].Raw? && (chunks[j + 1].s == [] || !IsDigit(chunks[j + 1].s[0]))
  {
  }

  lemma AlternatesOn(before: seq<Chunk>, v: Option<V>, r: Chunk)
    ensures Alternates(before) ==> Alternates(before + [Value(v), r])
  {
    var all := before + [Value(v), r];
    if Alternates(before) {
      forall j | 0 <= j < |all| - 1 && all[j].Raw?
        ensures all[j + 1].Value?
      {
        if j + 1 < |before| { assert before[j].Raw? && all[j + 1] == before[j + 1]; }
      }
    }
  }

  lemma TidyStep(text: string, before: seq<Chunk>, v: Option<V>, last: nat, i: nat)
    requires last <= i <= |text| && (forall j | last <= j < i :: !PlaceholderAt(text, j))
    requires last < |text| ==> !IsDigit(text[last])
    ensures OnlyPlaceholders(text) && Tidy(before) ==> Tidy(before + [Value(v), Raw(text[last..i])])
    ensures Alternates(before) ==> Alternates(before + [Value(v), Raw(text[last..i])])
    ensures before + [Value(v)] + [Raw(text[last..i])] == before + [Value(v), Raw(text[last..i])]
  {
    AlternatesOn(before, v, Raw(text[last..i]));
    var all := before + [Value(v), Raw(text[last..i])];
    if OnlyPlaceholders(text) && Tidy(before) {
      forall j | 0 <= j < |text[last..i]|
        ensures text[last..i][j] != '$'
      {
        assert !PlaceholderAt(text, last + j);
      }
      forall j | 0 <= j < |all|
        ensures all[j].Raw? ==> '$' !in all[j].s
        ensures all[j].Value? ==> j + 1 < |all| && all[j + 1].Raw? && (all[j + 1].s == [] || !IsDigit(all[j + 1].s[0]))
      {
        if j < |before| {
          assert all[j] == before[j];
          if before[j].Value? { TidyAt(before, j); assert all[j + 1] == before[j + 1]; }
        } else if j == |before| {
          assert all[j + 1] == Raw(text[last..i]);
        }
      }
    }
  }

  /** How the other binder writes the chunks: its own numbers, from wherever its list stands. */
  function Rebound(chunks: seq<Chunk>, n: nat): string {
    if chunks == [] then []
    else
      match chunks[0]
      case Raw(s) => s + Rebound(chunks[1..], n)
      case Value(_) => "$" + Decimal(n + 1) + Rebound(chunks[1..], n + 1)
  }

  /** The values in the order they are bound again; one used twice is bound twice. */
  function Values(chunks: seq<Chunk>): seq<V> {
    if chunks == [] then []
    else (if chunks[0].Value? && chunks[0].v.Some? then [chunks[0].v.value] else []) + Values(chunks[1..])
  }

  function FrontPieces(chunks: seq<Chunk>): seq<Piece> {
    if chunks == [] then []
    else OfChunk(chunks[0]) + FrontPieces(chunks[1..])
  }

  lemma {:induction false} PiecesFromFront(chunks: seq<Chunk>)
    ensures Pieces(chunks) == FrontPieces(chunks)
    decreases |chunks|
  {
    if chunks != [] {
      hide OfChunk;
      PiecesFromFront(Front(chunks));
      FrontAppend(Front(chunks), Last(chunks));
      assert chunks == Front(chunks) + [Last(chunks)];
    }
  }

  lemma {:induction false} FrontAppend(chunks: seq<Chunk>, c: Chunk)
    ensures FrontPieces(chunks + [c]) == FrontPieces(chunks) + OfChunk(c)
    decreases |chunks|
  {
    hide OfChunk;
    var all := chunks + [c];
    if chunks == [] {
      assert all[0] == c && all[1..] == [];
      assert FrontPieces(all[1..]) == [];
    } else {
      FrontAppend(chunks[1..], c);
      assert all[0] == chunks[0] && all[1..] == chunks[1..] + [c];
      Assoc(OfChunk(chunks[0]), FrontPieces(chunks[1..]), OfChunk(c));
    }
  }

  predicate AllBound(chunks: seq<Chunk>) { forall i | 0 <= i < |chunks| && chunks[i].Value? :: chunks[i].v.Some? }

  lemma ReboundHead(chunks: seq<Chunk>, n: nat)
    requires Tidy(chunks) && (chunks == [] || (chunks[0].Raw? && (chunks[0].s == [] || !IsDigit(chunks[0].s[0]))))
    ensures Rebound(chunks, n) == [] || !IsDigit(Rebound(chunks, n)[0]) || (chunks[0].s == [] && |chunks| > 1 && chunks[1].Raw?)
  {
    if chunks != [] && chunks[0].s == [] && |chunks| > 1 && chunks[1].Value? {
      assert chunks[1..][0] == chunks[1];
    }
  }

  /** Chunks as the splitter leaves them: text and values take turns. */
  predicate Alternates(chunks: seq<Chunk>) { forall i | 0 <= i < |chunks| - 1 :: chunks[i].Raw? ==> chunks[i + 1].Value? }

  lemma TailToo(chunks: seq<Chunk>)
    requires chunks != [] && Tidy(chunks) && AllBound(chunks) && Alternates(chunks)
    ensures Tidy(chunks[1..]) && AllBound(chunks[1..]) && Alternates(chunks[1..])
  {
    var tail := chunks[1..];
    assert forall i | 0 <= i < |tail| :: tail[i] == chunks[i + 1];
    forall i | 0 <= i < |tail| && tail[i].Value?
      ensures i + 1 < |tail| && tail[i + 1].Raw? && (tail[i + 1].s == [] || !IsDigit(tail[i + 1].s[0]))
    {
      TidyAt(chunks, i + 1);
      assert tail[i + 1] == chunks[i + 2];
    }
    forall i | 0 <= i < |tail| - 1 && tail[i].Raw?
      ensures tail[i + 1].Value?
    {
      assert chunks[i + 1].Raw? && tail[i + 1] == chunks[i + 2];
    }
  }

  lemma {:induction false} ReboundReads(chunks: seq<Chunk>, prior: seq<V>)
    requires Tidy(chunks) && AllBound(chunks) && Alternates(chunks)
    ensures Read(Rebound(chunks, |prior|), prior + Values(chunks)) == FrontPieces(chunks)
    decreases |chunks|
  {
    if chunks == [] {
      ReadEnd(prior + []);
    } else {
      hide Read;
      var tail := chunks[1..];
      TailToo(chunks);
      var params := prior + Values(chunks);
      match chunks[0]
      case Raw(s) =>
        ReboundReads(tail, prior);
        assert Values(chunks) == Values(tail);
        NoneAt(s, Rebound(tail, |prior|));
        ReadRaw(s, Rebound(tail, |prior|), params);
      case Value(v) =>
        ReboundReads(tail, prior + [v.value]);
        Assoc(prior, [v.value], Values(tail));
        TidyAt(chunks, 0);
        assert tail[0] == chunks[1];
        ReboundHead(tail, |prior| + 1);
        assert tail[0].Raw? && (|tail| > 1 ==> tail[1].Value?);
        ReadPlaceholder(|prior| + 1, Rebound(tail, |prior| + 1), params);
        assert params[|prior|] == v.value;
    }
  }

  lemma NoneAt(s: string, rest: string)
    requires '$' !in s
    ensures forall i | 0 <= i < |s| :: !PlaceholderAt(s + rest, i)
  {
  }
}
