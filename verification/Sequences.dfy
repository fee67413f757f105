/** Sequences and options shared by every part of the model. */
module Sequences {

  datatype Option<+T> = None | Some(value: T)

  function Min(a: int, b: int): int { if a < b then a else b }

  function Max(a: int, b: int): int { if a < b then b else a }

  lemma Scales(a: int, b: int, m: int)
    requires a <= b && m > 0
    ensures a * m <= b * m
  {
    assert (b - a) * m >= 0;
  }

  /** The multiple of m at or below n is the quotient. */
  lemma Quotient(n: int, m: int, q: int)
    requires m > 0 && q * m <= n < q * m + m
    ensures n / m == q && n % m == n - q * m
  {
    var p := n / m;
    assert n == p * m + n % m;
    if p < q { Scales(p + 1, q, m); } else if q < p { Scales(q + 1, p, m); }
  }

  function Last<T>(s: seq<T>): T
    requires s != []
  {
    s[|s| - 1]
  }

  function Front<T>(s: seq<T>): seq<T>
    requires s != []
  {
    s[..|s| - 1]
  }

  function Flatten<T>(ss: seq<seq<T>>): seq<T> {
    if ss == [] then [] else ss[0] + Flatten(ss[1..])
  }

  lemma Assoc<T>(x: seq<T>, y: seq<T>, z: seq<T>)
    ensures (x + y) + z == x + (y + z)
  {
  }

  lemma {:induction false} FlattenConcat<T>(a: seq<seq<T>>, b: seq<seq<T>>)
    ensures Flatten(a + b) == Flatten(a) + Flatten(b)
  {
    if a == [] {
      assert a + b == b;
    } else {
      FlattenConcat(a[1..], b);
      assert (a + b)[0] == a[0] && (a + b)[1..] == a[1..] + b;
      Assoc(a[0], Flatten(a[1..]), Flatten(b));
    }
  }

  lemma MultisetExtensional<T(!new)>(a: multiset<T>, b: multiset<T>)
    requires forall x :: a[x] == b[x]
    ensures a == b
  {
  }

  // ---------------------------------------------------------------------------
  // Subsequences
  // ---------------------------------------------------------------------------

  /** s is t with some elements left out, order kept. */
  ghost predicate Subsequence<T(!new)>(s: seq<T>, t: seq<T>)
    decreases |t|
  {
    s == [] ||
    (t != [] &&
     ((Last(s) == Last(t) && Subsequence(Front(s), Front(t))) || Subsequence(s, Front(t))))
  }

  lemma {:induction false} SubsequenceRefl<T(!new)>(s: seq<T>)
    ensures Subsequence(s, s)
    decreases |s|
  {
    if s != [] { SubsequenceRefl(Front(s)); }
  }

  /** Appending the same run to both sides keeps the relation. */
  lemma {:induction false} SubsequenceAppend<T(!new)>(s: seq<T>, t: seq<T>, run: seq<T>)
    requires Subsequence(s, t)
    ensures Subsequence(s + run, t + run)
    decreases |run|
  {
    if run == [] {
      assert s + run == s && t + run == t;
    } else {
      SubsequenceAppend(s, t, Front(run));
      assert Front(s + run) == s + Front(run);
      assert Front(t + run) == t + Front(run);
    }
  }

  /** Dropping the last element of the shorter side keeps the relation. */
  lemma {:induction false} SubsequenceFront<T(!new)>(s: seq<T>, t: seq<T>)
    requires s != [] && Subsequence(s, t)
    ensures Subsequence(Front(s), t)
    decreases |t|
  {
    if Last(s) == Last(t) && Subsequence(Front(s), Front(t)) {
    } else {
      SubsequenceFront(s, Front(t));
    }
  }

  lemma {:induction false} SubsequenceTrans<T(!new)>(s: seq<T>, t: seq<T>, u: seq<T>)
    requires Subsequence(s, t) && Subsequence(t, u)
    ensures Subsequence(s, u)
    decreases |u|
  {
    if s != [] {
      if Last(t) == Last(u) && Subsequence(Front(t), Front(u)) {
        if Last(s) == Last(t) && Subsequence(Front(s), Front(t)) {
          SubsequenceTrans(Front(s), Front(t), Front(u));
        } else {
          SubsequenceTrans(s, Front(t), Front(u));
        }
      } else {
        SubsequenceTrans(s, t, Front(u));
      }
    }
  }

  /** Cutting a run out of the middle leaves a subsequence. */
  lemma {:induction false} SubsequenceCut<T(!new)>(a: seq<T>, cut: seq<T>, b: seq<T>)
    ensures Subsequence(a + b, a + cut + b)
    decreases |cut|
  {
    if cut == [] {
      assert a + cut + b == a + b;
      SubsequenceRefl(a + b);
    } else {
      SubsequenceCut(a, Front(cut), []);
      assert a + [] == a;
      assert a + Front(cut) + [] == a + Front(cut);
      assert Front(a + cut) == a + Front(cut);
      assert Subsequence(a, a + cut);
      SubsequenceAppend(a, a + cut, b);
    }
  }
}
