/** LIKE with a declared backslash escape, and what escaping a caller's text makes it mean. */
module Like {
  import opened Sequences

  predicate Matches(p: string, s: string)
    decreases |p| + |s|
  {
    if p == "" then s == ""
    else if p[0] == '%' then Matches(p[1..], s) || (s != "" && Matches(p, s[1..]))
    else if p[0] == '_' then s != "" && Matches(p[1..], s[1..])
    else if p[0] == '\\' then |p| > 1 && s != "" && s[0] == p[1] && Matches(p[2..], s[1..])
    else s != "" && s[0] == p[0] && Matches(p[1..], s[1..])
  }

  function Escape(s: string): string {
    if s == "" then ""
    else (if s[0] in "\\%_" then ['\\', s[0]] else [s[0]]) + Escape(s[1..])
  }

  /** An escaped text matches itself and nothing else. */
  lemma {:induction false} EscapedIsLiteral(v: string, q: string, s: string)
    ensures Matches(Escape(v) + q, s) <==> v <= s && Matches(q, s[|v|..])
    decreases |v|
  {
    if v == "" {
      assert Escape(v) + q == q && s[0..] == s;
    } else {
      var head := if v[0] in "\\%_" then ['\\', v[0]] else [v[0]];
      assert Escape(v) + q == head + (Escape(v[1..]) + q);
      assert (head + (Escape(v[1..]) + q))[|head|..] == Escape(v[1..]) + q;
      if s != "" {
        EscapedIsLiteral(v[1..], q, s[1..]);
        assert v <= s <==> v[0] == s[0] && v[1..] <= s[1..];
        if v <= s { assert s[1..][|v| - 1..] == s[|v|..]; }
      }
    }
  }

  lemma {:induction false} PercentSkips(q: string, s: string)
    ensures Matches("%" + q, s) <==> exists i | 0 <= i <= |s| :: Matches(q, s[i..])
    decreases |s|
  {
    var p := "%" + q;
    assert p[1..] == q && s[0..] == s;
    if s != "" {
      PercentSkips(q, s[1..]);
      forall i | 0 <= i <= |s[1..]|
        ensures s[1..][i..] == s[i + 1..]
      {
      }
      if i :| 0 <= i <= |s[1..]| && Matches(q, s[1..][i..]) {
        assert Matches(q, s[i + 1..]);
      }
      if i :| 0 <= i <= |s| && Matches(q, s[i..]) {
        if i > 0 { assert Matches(q, s[1..][i - 1..]); }
      }
    }
  }

  lemma AnythingMatchesPercent(s: string)
    ensures Matches("%", s)
  {
    PercentSkips("", s);
    assert "%" + "" == "%";
    assert s[|s|..] == "" && Matches("", s[|s|..]);
  }

  ghost predicate Within(v: string, s: string) { exists i | 0 <= i <= |s| :: v <= s[i..] }

  predicate EndsWith(v: string, s: string) { |v| <= |s| && s[|s| - |v|..] == v }

  /** `contains` cannot be widened or narrowed by what the caller typed. */
  lemma ContainsPattern(v: string, s: string)
    ensures Matches("%" + Escape(v) + "%", s) <==> Within(v, s)
  {
    assert "%" + Escape(v) + "%" == "%" + (Escape(v) + "%");
    PercentSkips(Escape(v) + "%", s);
    forall i | 0 <= i <= |s|
      ensures Matches(Escape(v) + "%", s[i..]) <==> v <= s[i..]
    {
      EscapedIsLiteral(v, "%", s[i..]);
      if v <= s[i..] { AnythingMatchesPercent(s[i..][|v|..]); }
    }
  }

  lemma StartsPattern(v: string, s: string)
    ensures Matches(Escape(v) + "%", s) <==> v <= s
  {
    EscapedIsLiteral(v, "%", s);
    if v <= s { AnythingMatchesPercent(s[|v|..]); }
  }

  lemma EndsPattern(v: string, s: string)
    ensures Matches("%" + Escape(v), s) <==> EndsWith(v, s)
  {
    PercentSkips(Escape(v), s);
    forall i | 0 <= i <= |s|
      ensures Matches(Escape(v), s[i..]) <==> s[i..] == v
    {
      EscapedIsLiteral(v, "", s[i..]);
      assert Escape(v) + "" == Escape(v);
      if v <= s[i..] { assert s[i..] == v + s[i..][|v|..]; }
    }
    if i :| 0 <= i <= |s| && s[i..] == v { assert i == |s| - |v|; }
  }
}
