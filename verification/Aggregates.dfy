/** What can be asked of a list of numbers, said of the list alone. */
module Aggregates {
  import opened Sequences

  function Sum(xs: seq<real>): real { if xs == [] then 0.0 else Sum(Front(xs)) + Last(xs) }

  function Least(xs: seq<real>): real
    requires xs != []
  {
    if |xs| == 1 then xs[0]
    else var m := Least(Front(xs)); if Last(xs) < m then Last(xs) else m
  }

  function Most(xs: seq<real>): real
    requires xs != []
  {
    if |xs| == 1 then xs[0]
    else var m := Most(Front(xs)); if m < Last(xs) then Last(xs) else m
  }

  function Average(xs: seq<real>): real
    requires xs != []
  {
    Sum(xs) / (|xs| as real)
  }

  predicate Ascending(xs: seq<real>) { forall i, j | 0 <= i < j < |xs| :: xs[i] <= xs[j] }

  function Insert(x: real, xs: seq<real>): seq<real> {
    if xs == [] then [x] else if x <= xs[0] then [x] + xs else [xs[0]] + Insert(x, xs[1..])
  }

  function InOrder(xs: seq<real>): seq<real> { if xs == [] then [] else Insert(Last(xs), InOrder(Front(xs))) }

  function Times(a: real, b: real): real { a * b }

  /**
   * The value a fraction p of the way along the numbers in order, on the straight
   * line between the two that stand on either side of it.
   */
  function Quantile(xs: seq<real>, p: real): real
    requires xs != []
  {
    InOrderIs(xs);
    Along(InOrder(xs), Times(p, (|xs| - 1) as real))
  }

  function Along(s: seq<real>, at: real): real
    requires s != []
  {
    var k := at.Floor;
    if 0 <= k && k + 1 < |s| then Between(s[k], s[k + 1], at - k as real) else Last(s)
  }

  function Between(x: real, y: real, part: real): real { x + Times(part, y - x) }

  // ---------------------------------------------------------------------------
  // That they are what they are called
  // ---------------------------------------------------------------------------

  lemma {:induction false} LeastIs(xs: seq<real>)
    requires xs != []
    ensures Least(xs) in xs && forall x | x in xs :: Least(xs) <= x
    decreases |xs|
  {
    assert xs == Front(xs) + [Last(xs)];
    if |xs| > 1 { LeastIs(Front(xs)); }
  }

  lemma {:induction false} MostIs(xs: seq<real>)
    requires xs != []
    ensures Most(xs) in xs && forall x | x in xs :: x <= Most(xs)
    decreases |xs|
  {
    assert xs == Front(xs) + [Last(xs)];
    if |xs| > 1 { MostIs(Front(xs)); }
  }

  lemma {:induction false} SumConcat(a: seq<real>, b: seq<real>)
    ensures Sum(a + b) == Sum(a) + Sum(b)
    decreases |b|
  {
    if b == [] {
      assert a + b == a;
    } else {
      assert Front(a + b) == a + Front(b);
      SumConcat(a, Front(b));
    }
  }

  /** The sum does not depend on the order. */
  lemma {:induction false} SumOrderless(a: seq<real>, b: seq<real>)
    requires multiset(a) == multiset(b)
    ensures Sum(a) == Sum(b)
    decreases |a|
  {
    assert |a| == |multiset(a)| == |multiset(b)| == |b|;
    if a != [] {
      var x := Last(a);
      assert a == Front(a) + [x];
      assert x in multiset(b);
      var i :| 0 <= i < |b| && b[i] == x;
      assert b == b[..i] + [x] + b[i + 1..];
      assert multiset(b[..i] + b[i + 1..]) == multiset(b) - multiset{x};
      assert multiset(Front(a)) == multiset(a) - multiset{x};
      SumOrderless(Front(a), b[..i] + b[i + 1..]);
      SumConcat(b[..i], b[i + 1..]);
      SumConcat(b[..i] + [x], b[i + 1..]);
      SumConcat(b[..i], [x]);
      assert Front([x]) == [];
    }
  }

  lemma {:induction false} InsertContents(x: real, xs: seq<real>)
    ensures multiset(Insert(x, xs)) == multiset(xs) + multiset{x}
    decreases |xs|
  {
    if xs != [] {
      assert xs == [xs[0]] + xs[1..];
      if xs[0] < x { InsertContents(x, xs[1..]); }
    }
  }

  lemma {:induction false} InsertAscending(x: real, xs: seq<real>)
    requires Ascending(xs)
    ensures Ascending(Insert(x, xs))
    decreases |xs|
  {
    if xs != [] {
      if xs[0] < x {
        AscendingTail(xs);
        InsertAscending(x, xs[1..]);
        InsertAbove(x, xs[1..], xs[0]);
        AscendingCons(xs[0], Insert(x, xs[1..]));
      } else {
        AscendingBefore(x, xs);
      }
    }
  }

  lemma {:induction false} InsertAbove(x: real, xs: seq<real>, bound: real)
    requires bound <= x && forall y | y in xs :: bound <= y
    ensures forall y | y in Insert(x, xs) :: bound <= y
    decreases |xs|
  {
    if xs != [] && xs[0] < x {
      assert xs[0] in xs && forall y | y in xs[1..] :: y in xs;
      InsertAbove(x, xs[1..], bound);
    }
  }

  lemma AscendingBefore(x: real, xs: seq<real>)
    requires xs != [] && Ascending(xs) && x <= xs[0]
    ensures Ascending([x] + xs)
  {
    forall y | y in xs
      ensures x <= y
    {
      var i :| 0 <= i < |xs| && xs[i] == y;
      assert i > 0 ==> xs[0] <= xs[i];
    }
    AscendingCons(x, xs);
  }

  lemma AscendingTail(xs: seq<real>)
    requires xs != [] && Ascending(xs)
    ensures Ascending(xs[1..]) && forall y | y in xs[1..] :: xs[0] <= y
  {
  }

  lemma AscendingCons(x: real, rest: seq<real>)
    requires Ascending(rest) && forall y | y in rest :: x <= y
    ensures Ascending([x] + rest)
  {
    var s := [x] + rest;
    forall i, j | 0 <= i < j < |s|
      ensures s[i] <= s[j]
    {
      assert s[j] == rest[j - 1] && (i > 0 ==> s[i] == rest[i - 1]);
      assert rest[j - 1] in rest;
    }
  }

  /** The numbers themselves, smallest first. */
  lemma {:induction false} InOrderIs(xs: seq<real>)
    ensures Ascending(InOrder(xs)) && multiset(InOrder(xs)) == multiset(xs) && |InOrder(xs)| == |xs|
    decreases |xs|
  {
    if xs != [] {
      InOrderIs(Front(xs));
      InsertContents(Last(xs), InOrder(Front(xs)));
      InsertAscending(Last(xs), InOrder(Front(xs)));
      assert xs == Front(xs) + [Last(xs)];
    }
    assert |InOrder(xs)| == |multiset(InOrder(xs))| == |multiset(xs)| == |xs|;
  }

  lemma TimesRises(p: real, q: real, n: real)
    requires p <= q && 0.0 <= n
    ensures Times(p, n) <= Times(q, n)
  {
    var more := q - p;
    assert more * n >= 0.0;
    assert q * n == (p + more) * n == p * n + more * n;
  }

  lemma TimesEnds(n: real)
    ensures Times(0.0, n) == 0.0 && Times(1.0, n) == n
  {
  }

  /**
   * A percentile starts at the least and ends at the most, and never falls as
   * the fraction grows.
   */
  lemma QuantileIs(xs: seq<real>, p: real, q: real)
    requires xs != [] && 0.0 <= p <= q <= 1.0
    ensures Quantile(xs, 0.0) == Least(xs) && Quantile(xs, 1.0) == Most(xs)
    ensures Least(xs) <= Quantile(xs, p) <= Quantile(xs, q) <= Most(xs)
  {
    InOrderIs(xs);
    var s, n := InOrder(xs), (|xs| - 1) as real;
    EndsOfOrder(xs);
    TimesEnds(n);
    TimesRises(0.0, p, n);
    TimesRises(p, q, n);
    TimesRises(q, 1.0, n);
    AlongEnds(s);
    hide InOrder, Times, Least, Most, Ascending, Along;
    AlongRises(s, 0.0, Times(p, n));
    AlongRises(s, Times(p, n), Times(q, n));
    AlongRises(s, Times(q, n), n);
  }

  lemma EndsOfOrder(xs: seq<real>)
    requires xs != []
    ensures |InOrder(xs)| == |xs| && InOrder(xs)[0] == Least(xs) && Last(InOrder(xs)) == Most(xs)
  {
    var s := InOrder(xs);
    InOrderIs(xs);
    LeastIs(xs);
    MostIs(xs);
    hide InOrder, Least, Most;
    assert s[0] in multiset(s) && Last(s) in multiset(s);
    assert Least(xs) in multiset(xs) && Most(xs) in multiset(xs);
    assert s[0] in xs && Last(s) in xs && Least(xs) in s && Most(xs) in s;
  }

  lemma AlongEnds(s: seq<real>)
    requires s != []
    ensures Along(s, 0.0) == s[0] && Along(s, (|s| - 1) as real) == Last(s)
  {
    if |s| > 1 { TimesEnds(s[1] - s[0]); }
  }

  lemma BetweenRises(x: real, y: real, a: real, b: real)
    requires x <= y && a <= b
    ensures Between(x, y, a) <= Between(x, y, b)
    ensures Between(x, y, 0.0) == x && Between(x, y, 1.0) == y
  {
    TimesRises(a, b, y - x);
    TimesEnds(y - x);
    hide Times;
  }

  lemma AlongBetween(s: seq<real>, at: real)
    requires Ascending(s) && s != [] && 0.0 <= at <= (|s| - 1) as real
    ensures s[at.Floor] <= Along(s, at)
    ensures at.Floor + 1 < |s| ==> Along(s, at) <= s[at.Floor + 1]
  {
    hide Between;
    var k := at.Floor;
    if k + 1 < |s| {
      BetweenRises(s[k], s[k + 1], 0.0, at - k as real);
      BetweenRises(s[k], s[k + 1], at - k as real, 1.0);
    }
  }

  lemma AlongRises(s: seq<real>, a: real, b: real)
    requires Ascending(s) && s != [] && 0.0 <= a <= b <= (|s| - 1) as real
    ensures Along(s, a) <= Along(s, b)
  {
    hide Between;
    AlongBetween(s, a);
    AlongBetween(s, b);
    var k := a.Floor;
    if k == b.Floor {
      if k + 1 < |s| { BetweenRises(s[k], s[k + 1], a - k as real, b - k as real); }
    } else {
      assert s[k + 1] <= s[b.Floor];
    }
  }
}
