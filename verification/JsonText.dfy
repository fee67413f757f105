/**
 * JSON as characters: strings quoted and escaped, numbers spelled out, tokens
 * with nothing in between. Text decides the tokens, so what is proved of the
 * tokens of a key holds of its text. Section 25.5.2 of ECMA-262 is followed but
 * for lone surrogates, which a character here cannot be.
 */
module JsonText {
  import opened Sequences
  import opened QueryKeys
  import QueryJson
  import Statements

  // ---------------------------------------------------------------------------
  // Strings
  // ---------------------------------------------------------------------------

  /** The letter of a two-character escape. */
  function Letter(c: char): Option<char> {
    match c as int
    case 34 => Some('\"')
    case 92 => Some('\\')
    case 8 => Some('b')
    case 9 => Some('t')
    case 10 => Some('n')
    case 12 => Some('f')
    case 13 => Some('r')
    case _ => None
  }

  function Hex(n: nat): char
    requires n < 16
  {
    if n < 10 then (48 + n) as char else (87 + n) as char
  }

  function Escaped(c: char): string {
    if Letter(c).Some? then ['\\', Letter(c).value]
    else if c as int < 32 then ['\\', 'u', '0', '0', Hex(c as int / 16), Hex(c as int % 16)]
    else [c]
  }

  function Body(s: string): string { if s == [] then [] else Escaped(s[0]) + Body(s[1..]) }

  function Quoted(s: string): string { ['\"'] + (Body(s) + ['\"']) }

  lemma LetterOneWay(c: char, d: char)
    requires Letter(c).Some? && Letter(c) == Letter(d)
    ensures c == d
  {
    assert c as int == d as int;
  }

  lemma HexOneWay(m: nat, n: nat)
    requires m < 16 && n < 16 && Hex(m) == Hex(n)
    ensures m == n
  {
    assert Hex(m) as int == Hex(n) as int;
  }

  lemma EscapedHead(c: char)
    ensures Escaped(c) != [] && Escaped(c)[0] != '\"'
    ensures Escaped(c)[0] == '\\' <==> |Escaped(c)| > 1
    ensures |Escaped(c)| > 1 ==> (Escaped(c)[1] == 'u' <==> |Escaped(c)| == 6)
  {
  }

  /** What stands for a character is read back as it, whatever follows. */
  lemma EscapedOneWay(c: char, d: char, x: string, y: string)
    requires Escaped(c) + x == Escaped(d) + y
    ensures c == d && x == y
  {
    var e, f := Escaped(c), Escaped(d);
    EscapedHead(c);
    EscapedHead(d);
    assert (e + x)[0] == e[0] && (f + y)[0] == f[0];
    if |e| > 1 { assert (e + x)[1] == e[1] && (f + y)[1] == f[1]; }
    assert |e| == |f|;
    assert e == (e + x)[..|e|] == f && x == (e + x)[|e|..] == y;
    EscapedDecides(c, d);
  }

  lemma EscapedDecides(c: char, d: char)
    requires Escaped(c) == Escaped(d)
    ensures c == d
  {
    EscapedHead(c);
    if |Escaped(c)| == 1 {
    } else if |Escaped(c)| == 6 {
      HexOneWay(c as int / 16, d as int / 16);
      HexOneWay(c as int % 16, d as int % 16);
      assert c as int == c as int / 16 * 16 + c as int % 16;
      assert c as int == d as int;
    } else {
      LetterOneWay(c, d);
    }
  }

  lemma {:induction false} BodyOneWay(s: string, t: string, x: string, y: string)
    requires Body(s) + (['\"'] + x) == Body(t) + (['\"'] + y)
    ensures s == t && x == y
    decreases |s|
  {
    BodyHead(s, x);
    BodyHead(t, y);
    if s == [] {
      assert Body(s) + (['\"'] + x) == ['\"'] + x && Body(t) + (['\"'] + y) == ['\"'] + y;
      CancelHead(x, y, '\"', '\"');
    } else {
      hide Escaped;
      Assoc(Escaped(s[0]), Body(s[1..]), ['\"'] + x);
      Assoc(Escaped(t[0]), Body(t[1..]), ['\"'] + y);
      EscapedOneWay(s[0], t[0], Body(s[1..]) + (['\"'] + x), Body(t[1..]) + (['\"'] + y));
      BodyOneWay(s[1..], t[1..], x, y);
      assert s == [s[0]] + s[1..] && t == [t[0]] + t[1..];
    }
  }

  /** The first bare quote is the end. */
  lemma BodyHead(s: string, x: string)
    ensures var text := Body(s) + (['\"'] + x);
            text != [] && (text[0] == '\"' <==> s == [])
  {
    if s != [] { EscapedHead(s[0]); }
  }

  lemma QuotedOneWay(s: string, t: string, x: string, y: string)
    requires Quoted(s) + x == Quoted(t) + y
    ensures s == t && x == y
  {
    hide Body;
    Requoted(s, x);
    Requoted(t, y);
    CancelHead(Body(s) + (['\"'] + x), Body(t) + (['\"'] + y), '\"', '\"');
    BodyOneWay(s, t, x, y);
  }

  lemma Requoted(s: string, x: string)
    ensures Quoted(s) + x == ['\"'] + (Body(s) + (['\"'] + x))
  {
    hide Body;
    Assoc(['\"'], Body(s) + ['\"'], x);
    Assoc(Body(s), ['\"'], x);
  }

  // ---------------------------------------------------------------------------
  // Numbers
  // ---------------------------------------------------------------------------

  predicate NumberChar(c: char) { '0' <= c <= '9' || c == '+' || c == '-' || c == '.' || c == 'e' }

  predicate NumberText(s: string) { s != [] && forall i | 0 <= i < |s| :: NumberChar(s[i]) }

  /** The numbers a program can hold, and how it writes them. */
  datatype Numerals = Numerals(held: iset<real>, digits: real -> string)

  /** Each its own way, and in characters of numbers only. */
  ghost predicate Spells(w: Numerals) {
    && (forall n | n in w.held :: NumberText(w.digits(n)))
    && forall m, n | m in w.held && n in w.held && w.digits(m) == w.digits(n) :: m == n
  }

  /** Every number among these is one the program can hold. */
  ghost predicate Held(ts: seq<Tok>, w: Numerals) { forall i | 0 <= i < |ts| && ts[i].TNum? :: ts[i].n in w.held }

  lemma RunReaches(p: string, q: string, x: string, y: string)
    requires NumberText(q) && (x == [] || !NumberChar(x[0])) && p + x == q + y
    ensures |q| <= |p|
  {
    var text := p + x;
    assert forall i | 0 <= i < |q| :: NumberChar(text[i]) by { assert forall i | 0 <= i < |q| :: text[i] == q[i]; }
    assert |p| < |text| ==> text[|p|] == x[0];
  }

  /** A number is as long as its characters go on. */
  lemma RunOneWay(p: string, q: string, x: string, y: string)
    requires NumberText(p) && NumberText(q) && (x == [] || !NumberChar(x[0])) && (y == [] || !NumberChar(y[0]))
    requires p + x == q + y
    ensures p == q && x == y
  {
    RunReaches(p, q, x, y);
    RunReaches(q, p, y, x);
    assert p == (p + x)[..|p|] && q == (q + y)[..|q|];
    assert x == (p + x)[|p|..] && y == (q + y)[|q|..];
  }

  // ---------------------------------------------------------------------------
  // Tokens
  // ---------------------------------------------------------------------------

  function Spelled(t: Tok, w: Numerals): string {
    match t
    case TNull => "null"
    case TBool(b) => if b then "true" else "false"
    case TNum(n) => w.digits(n)
    case TStr(s) => Quoted(s)
    case Open => "["
    case Close => "]"
    case OpenObj => "{"
    case CloseObj => "}"
    case Colon => ":"
    case Comma => ","
  }

  function Spell(ts: seq<Tok>, w: Numerals): string {
    if ts == [] then [] else Spelled(ts[0], w) + Spell(ts[1..], w)
  }

  /** What a token that is no number opens with. */
  function Mark(t: Tok): char
    requires !t.TNum?
  {
    match t
    case TNull => 'n'
    case TBool(b) => if b then 't' else 'f'
    case TStr(_) => '\"'
    case Open => '['
    case Close => ']'
    case OpenObj => '{'
    case CloseObj => '}'
    case Colon => ':'
    case Comma => ','
  }

  lemma SpelledHead(t: Tok, w: Numerals)
    requires Spells(w) && (t.TNum? ==> t.n in w.held)
    ensures Spelled(t, w) != [] && (NumberChar(Spelled(t, w)[0]) <==> t.TNum?)
    ensures !t.TNum? ==> Spelled(t, w)[0] == Mark(t)
  {
    hide Body;
    if t.TNum? { assert NumberText(w.digits(t.n)); }
  }

  /** What a token is told by its mark but for the text of a string. */
  lemma MarkDecides(t: Tok, u: Tok)
    requires !t.TNum? && !u.TNum? && Mark(t) == Mark(u)
    ensures t.TStr? == u.TStr? && (!t.TStr? ==> t == u)
  {
  }

  lemma TokenOneWay(t: Tok, u: Tok, x: string, y: string, w: Numerals)
    requires Spells(w) && Spelled(t, w) + x == Spelled(u, w) + y
    requires t.TNum? ==> t.n in w.held && (x == [] || !NumberChar(x[0]))
    requires u.TNum? ==> u.n in w.held && (y == [] || !NumberChar(y[0]))
    ensures t == u && x == y
  {
    hide Quoted, NumberChar;
    var s, r := Spelled(t, w), Spelled(u, w);
    SpelledHead(t, w);
    SpelledHead(u, w);
    assert (s + x)[0] == s[0] && (r + y)[0] == r[0];
    if t.TNum? {
      assert NumberText(w.digits(t.n)) && NumberText(w.digits(u.n));
      RunOneWay(w.digits(t.n), w.digits(u.n), x, y);
    } else {
      MarkDecides(t, u);
      if t.TStr? { QuotedOneWay(t.s, u.s, x, y); } else { CancelPrefix(s, x, y); }
    }
  }

  /** No number straight after a number. */
  ghost predicate Apart(ts: seq<Tok>) { forall i | 0 <= i < |ts| - 1 && ts[i].TNum? :: !ts[i + 1].TNum? }

  lemma ApartTail(ts: seq<Tok>, w: Numerals)
    requires ts != [] && Apart(ts) && Held(ts, w)
    ensures Held(ts[1..], w) && (ts[0].TNum? ==> ts[0].n in w.held)
    ensures Apart(ts[1..]) && (ts[0].TNum? && ts[1..] != [] ==> !ts[1..][0].TNum?)
  {
    var rest := ts[1..];
    forall i | 0 <= i < |rest| - 1 && rest[i].TNum?
      ensures !rest[i + 1].TNum?
    {
      assert rest[i] == ts[i + 1] && rest[i + 1] == ts[i + 2];
    }
  }

  lemma SpellHead(ts: seq<Tok>, w: Numerals)
    requires Spells(w) && ts != [] && Held(ts, w)
    ensures Spell(ts, w) != [] && (NumberChar(Spell(ts, w)[0]) <==> ts[0].TNum?)
  {
    hide Spelled, NumberChar;
    SpelledHead(ts[0], w);
  }

  /** Characters can be read as tokens only one way. */
  lemma {:induction false} SpellOneWay(ts: seq<Tok>, us: seq<Tok>, w: Numerals)
    requires Spells(w) && Held(ts, w) && Held(us, w) && Apart(ts) && Apart(us) && Spell(ts, w) == Spell(us, w)
    ensures ts == us
    decreases |ts|
  {
    hide Spelled, NumberChar, Spells, Apart, Held;
    if ts != [] { SpellHead(ts, w); ApartTail(ts, w); }
    if us != [] { SpellHead(us, w); ApartTail(us, w); }
    if ts != [] {
      if ts[1..] != [] { SpellHead(ts[1..], w); }
      if us[1..] != [] { SpellHead(us[1..], w); }
      TokenOneWay(ts[0], us[0], Spell(ts[1..], w), Spell(us[1..], w), w);
      SpellOneWay(ts[1..], us[1..], w);
      assert ts == [ts[0]] + ts[1..] && us == [us[0]] + us[1..];
    }
  }

  // ---------------------------------------------------------------------------
  // Written values keep their numbers apart
  // ---------------------------------------------------------------------------

  predicate OpensPlain(ts: seq<Tok>) { ts != [] ==> !ts[0].TNum? }

  lemma ApartCons(t: Tok, ts: seq<Tok>)
    requires Apart(ts) && (t.TNum? ==> OpensPlain(ts))
    ensures Apart([t] + ts)
  {
    var all := [t] + ts;
    forall i | 0 <= i < |all| - 1 && all[i].TNum?
      ensures !all[i + 1].TNum?
    {
      if i > 0 { assert all[i] == ts[i - 1] && all[i + 1] == ts[i]; }
    }
  }

  lemma {:induction false} WrittenApart(v: Js, r: seq<Tok>)
    requires Apart(r) && OpensPlain(r)
    ensures Apart(Written(v) + r)
    decreases v
  {
    hide Apart;
    match v
    case Arr(items) =>
      ItemsApart(items, true, r);
      ApartCons(Open, WrittenItems(items, true) + r);
      Assoc([Open], WrittenItems(items, true), r);
    case Obj(props) =>
      PropsApart(props, true, r);
      ApartCons(OpenObj, WrittenProps(props, true) + r);
      Assoc([OpenObj], WrittenProps(props, true), r);
    case _ => ApartCons(Written(v)[0], r);
  }

  lemma {:induction false} ItemsApart(items: seq<Js>, first: bool, r: seq<Tok>)
    requires Apart(r) && OpensPlain(r)
    ensures Apart(WrittenItems(items, first) + r)
    ensures !first ==> OpensPlain(WrittenItems(items, first) + r)
    decreases items
  {
    hide Apart, Written;
    if items == [] {
      ApartCons(Close, r);
    } else {
      var rest := WrittenItems(items[1..], false);
      var text := Written(items[0]) + (rest + r);
      ItemsApart(items[1..], false, r);
      WrittenApart(items[0], rest + r);
      ItemsUnfold(items, first, r);
      if !first { ApartCons(Comma, text); }
    }
  }

  lemma ItemsUnfold(items: seq<Js>, first: bool, r: seq<Tok>)
    requires items != []
    ensures WrittenItems(items, first) + r ==
            var text := Written(items[0]) + (WrittenItems(items[1..], false) + r);
            if first then text else [Comma] + text
  {
    hide Written;
    var rest := WrittenItems(items[1..], false);
    var c := if first then [] else [Comma];
    Assoc(c + Written(items[0]), rest, r);
    Assoc(c, Written(items[0]), rest + r);
    assert [] + (Written(items[0]) + (rest + r)) == Written(items[0]) + (rest + r);
  }

  lemma {:induction false} PropsApart(props: seq<Prop>, first: bool, r: seq<Tok>)
    requires Apart(r) && OpensPlain(r)
    ensures Apart(WrittenProps(props, first) + r)
    ensures !first ==> OpensPlain(WrittenProps(props, first) + r)
    decreases props
  {
    hide Apart, Written;
    if props == [] {
      ApartCons(CloseObj, r);
    } else if props[0].value.None? {
      PropsApart(props[1..], first, r);
    } else {
      var v, rest := props[0].value.value, WrittenProps(props[1..], false) + r;
      PropsApart(props[1..], false, r);
      WrittenApart(v, rest);
      PropStep(props, first, r);
      ApartCons(Colon, Written(v) + rest);
      ApartCons(TStr(props[0].key), [Colon] + (Written(v) + rest));
      var text := [TStr(props[0].key)] + ([Colon] + (Written(v) + rest));
      assert [] + text == text;
      if !first { ApartCons(Comma, text); }
    }
  }

  // ---------------------------------------------------------------------------
  // Keys as text
  // ---------------------------------------------------------------------------

  /** `JSON.stringify` of a value. */
  function Text(v: Js, w: Numerals): string { Spell(Written(v), w) }

  lemma TextDecidesTokens(a: Js, b: Js, w: Numerals)
    requires Spells(w) && Held(Written(a), w) && Held(Written(b), w)
    ensures Text(a, w) == Text(b, w) <==> Written(a) == Written(b)
  {
    hide Written, Spell, Spells, Held;
    WrittenApart(a, []);
    WrittenApart(b, []);
    assert Written(a) + [] == Written(a) && Written(b) + [] == Written(b);
    if Text(a, w) == Text(b, w) { SpellOneWay(Written(a), Written(b), w); }
  }

  /** Text with nothing undefined left out of it is the text of one value only. */
  lemma TextOneWay(a: Js, b: Js, w: Numerals)
    requires Spells(w) && Held(Written(a), w) && Held(Written(b), w)
    requires Defined(a) && Defined(b) && Text(a, w) == Text(b, w)
    ensures a == b
  {
    hide Written, Text, Defined, Spells, Held;
    TextDecidesTokens(a, b, w);
    assert Written(a) + [] == Written(b) + [];
    ReadOneWay(a, b, [], []);
  }

  function KeyText(v: Js, w: Numerals): string { Text(Canonical(v), w) }

  /** One key text exactly for values that are the same up to key order and undefined parts. */
  lemma KeyTextIff(a: Js, b: Js, w: Numerals)
    requires Spells(w) && Held(Key(a), w) && Held(Key(b), w) && Proper(a) && Proper(b)
    ensures KeyText(a, w) == KeyText(b, w) <==> Same(a, b)
  {
    hide Canonical, Written, Text, Same, Spells, Held, Proper;
    TextDecidesTokens(Canonical(a), Canonical(b), w);
    KeyIff(a, b);
  }

  /** Two queries are filed under one text only if they are one query, and the tokens of the key stand for its text. */
  lemma QueryTextDecides(p: Statements.Query, q: Statements.Query, w: Numerals)
    requires Spells(w) && Held(QueryJson.QueryKey(p), w) && Held(QueryJson.QueryKey(q), w)
    ensures KeyText(QueryJson.QueryJs(p), w) == KeyText(QueryJson.QueryJs(q), w) <==>
            QueryJson.QueryKey(p) == QueryJson.QueryKey(q)
    ensures KeyText(QueryJson.QueryJs(p), w) == KeyText(QueryJson.QueryJs(q), w) ==> p == q
  {
    hide Canonical, Written, Text, Spells, Held, QueryJson.QueryJs;
    TextDecidesTokens(Canonical(QueryJson.QueryJs(p)), Canonical(QueryJson.QueryJs(q)), w);
    if QueryJson.QueryKey(p) == QueryJson.QueryKey(q) { QueryJson.KeyDecidesQuery(p, q); }
  }
}
