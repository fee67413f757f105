/**
 * Splitting a slice of the queue into request bodies: one per resource, none
 * with more entries than a request may carry. The Node and the Go client share the shape.
 */
module Grouping {
  import opened Sequences

  /** A queued entry: the key of the resource it must travel with, and what it carries. */
  datatype Item<+W> = Item(group: string, load: W)

  /** The items of one group, in order. */
  function OfGroup<W>(s: seq<Item<W>>, g: string): seq<Item<W>> {
    if s == [] then []
    else OfGroup(Front(s), g) + if Last(s).group == g then [Last(s)] else []
  }

  /** The groups of a slice, in order of first appearance. */
  function GroupKeys<W>(s: seq<Item<W>>): seq<string> {
    if s == [] then []
    else
      var keys := GroupKeys(Front(s));
      if Last(s).group in keys then keys else keys + [Last(s).group]
  }

  function Chunks<T>(s: seq<T>, max: nat): seq<seq<T>>
    requires 0 < max
  {
    if s == [] then []
    else if |s| <= max then [s]
    else [s[..max]] + Chunks(s[max..], max)
  }

  function BatchesOf<W>(s: seq<Item<W>>, keys: seq<string>, max: nat): seq<seq<Item<W>>>
    requires 0 < max
  {
    if keys == [] then [] else BatchesOf(s, Front(keys), max) + Chunks(OfGroup(s, Last(keys)), max)
  }

  function Batches<W>(s: seq<Item<W>>, max: nat): seq<seq<Item<W>>>
    requires 0 < max
  {
    BatchesOf(s, GroupKeys(s), max)
  }

  /** One request body: something to send, within the cap, and all of one resource. */
  predicate ProperBatch<W>(b: seq<Item<W>>, max: nat) {
    0 < |b| <= max && forall i, j | 0 <= i < |b| && 0 <= j < |b| :: b[i].group == b[j].group
  }

  // ---------------------------------------------------------------------------
  // Order and contents
  // ---------------------------------------------------------------------------

  lemma {:induction false} OfGroupConcat<W>(a: seq<Item<W>>, b: seq<Item<W>>, g: string)
    ensures OfGroup(a + b, g) == OfGroup(a, g) + OfGroup(b, g)
    decreases |b|
  {
    if b == [] {
      assert a + b == a;
    } else {
      var tail := if Last(b).group == g then [Last(b)] else [];
      OfGroupConcat(a, Front(b), g);
      OfGroupLast(b, g);
      assert Front(a + b) == a + Front(b);
      OfGroupLast(a + b, g);
      hide OfGroup;
      Assoc(OfGroup(a, g), OfGroup(Front(b), g), tail);
    }
  }

  lemma OfGroupLast<W>(s: seq<Item<W>>, g: string)
    requires s != []
    ensures OfGroup(s, g) == OfGroup(Front(s), g) + if Last(s).group == g then [Last(s)] else []
  {
  }

  /** What leaves the middle of a sequence leaves a group's order as it was. */
  lemma OfGroupCut<W(!new)>(x: seq<Item<W>>, cut: seq<Item<W>>, b: seq<Item<W>>, g: string, order: seq<Item<W>>)
    requires Subsequence(OfGroup(x + cut + b, g), order)
    ensures Subsequence(OfGroup(x + b, g), order)
  {
    hide OfGroup, Subsequence;
    OfGroupConcat(x, b, g);
    OfGroupConcat(x, cut, g);
    OfGroupConcat(x + cut, b, g);
    SubsequenceCut(OfGroup(x, g), OfGroup(cut, g), OfGroup(b, g));
    SubsequenceTrans(OfGroup(x, g) + OfGroup(b, g), OfGroup(x + cut + b, g), order);
  }

  lemma {:induction false} OfGroupMember<W>(s: seq<Item<W>>, g: string)
    ensures forall x :: x in OfGroup(s, g) <==> x in s && x.group == g
    decreases |s|
  {
    if s != [] {
      OfGroupMember(Front(s), g);
      assert s == Front(s) + [Last(s)];
    }
  }

  lemma {:induction false} OfGroupTwice<W>(s: seq<Item<W>>, k: string, g: string)
    ensures OfGroup(OfGroup(s, k), g) == if k == g then OfGroup(s, g) else []
    decreases |s|
  {
    if s != [] {
      OfGroupTwice(Front(s), k, g);
      var tail := if Last(s).group == k then [Last(s)] else [];
      OfGroupConcat(OfGroup(Front(s), k), tail, g);
      assert tail != [] ==> Front(tail) == [] && OfGroup(Front(tail), g) == [];
    }
  }

  lemma {:induction false} GroupKeysCover<W>(s: seq<Item<W>>)
    ensures forall x | x in s :: x.group in GroupKeys(s)
    ensures forall i, j | 0 <= i < j < |GroupKeys(s)| :: GroupKeys(s)[i] != GroupKeys(s)[j]
    ensures |GroupKeys(s)| <= |s|
    ensures forall k :: k in GroupKeys(s) <==> OfGroup(s, k) != []
    decreases |s|
  {
    if s != [] {
      GroupKeysCover(Front(s));
      assert s == Front(s) + [Last(s)];
    }
  }

  lemma {:induction false} ChunksFlatten<T>(s: seq<T>, max: nat)
    requires 0 < max
    ensures Flatten(Chunks(s, max)) == s
    decreases |s|
  {
    if max < |s| {
      ChunksFlatten(s[max..], max);
      assert ([s[..max]] + Chunks(s[max..], max))[1..] == Chunks(s[max..], max);
      assert s[..max] + s[max..] == s;
    } else if s != [] {
      assert Flatten([s]) == s + Flatten([s][1..]) == s;
    }
  }

  lemma {:induction false} ChunksFit<T>(s: seq<T>, max: nat)
    requires 0 < max
    ensures |Chunks(s, max)| <= |s|
    ensures forall c | c in Chunks(s, max) :: 0 < |c| <= max && forall x | x in c :: x in s
    decreases |s|
  {
    if max < |s| { ChunksFit(s[max..], max); }
  }

  lemma {:induction false} BatchesOfGroup<W>(s: seq<Item<W>>, keys: seq<string>, max: nat, g: string)
    requires 0 < max
    requires forall i, j | 0 <= i < j < |keys| :: keys[i] != keys[j]
    ensures OfGroup(Flatten(BatchesOf(s, keys, max)), g) == if g in keys then OfGroup(s, g) else []
    decreases |keys|
  {
    if keys != [] {
      hide Chunks, OfGroup, Flatten;
      var k, before := Last(keys), BatchesOf(s, Front(keys), max);
      assert keys == Front(keys) + [k];
      BatchesOfGroup(s, Front(keys), max, g);
      FlattenConcat(before, Chunks(OfGroup(s, k), max));
      ChunksFlatten(OfGroup(s, k), max);
      OfGroupConcat(Flatten(before), OfGroup(s, k), g);
      OfGroupTwice(s, k, g);
    }
  }

  /** Batching reorders across groups and never inside one. */
  lemma BatchesKeepGroupOrder<W>(s: seq<Item<W>>, max: nat, g: string)
    requires 0 < max
    ensures OfGroup(Flatten(Batches(s, max)), g) == OfGroup(s, g)
  {
    GroupKeysCover(s);
    BatchesOfGroup(s, GroupKeys(s), max, g);
  }

  lemma {:induction false} OfGroupCount<W>(s: seq<Item<W>>, x: Item<W>)
    ensures multiset(OfGroup(s, x.group))[x] == multiset(s)[x]
    decreases |s|
  {
    if s != [] {
      OfGroupCount(Front(s), x);
      assert s == Front(s) + [Last(s)];
    }
  }

  /** Batching neither loses nor duplicates an entry. */
  lemma BatchesKeepContents<W(!new)>(s: seq<Item<W>>, max: nat)
    requires 0 < max
    ensures multiset(Flatten(Batches(s, max))) == multiset(s)
  {
    var sent, all := multiset(Flatten(Batches(s, max))), multiset(s);
    forall x: Item<W>
      ensures sent[x] == all[x]
    {
      OfGroupCount(Flatten(Batches(s, max)), x);
      BatchesKeepGroupOrder(s, max, x.group);
      OfGroupCount(s, x);
    }
    MultisetExtensional(sent, all);
  }

  lemma {:induction false} OfGroupLength<W>(s: seq<Item<W>>, keys: seq<string>, max: nat)
    requires 0 < max
    ensures |BatchesOf(s, keys, max)| <= |Flatten(BatchesOf(s, keys, max))|
    decreases |keys|
  {
    if keys != [] {
      OfGroupLength(s, Front(keys), max);
      FlattenConcat(BatchesOf(s, Front(keys), max), Chunks(OfGroup(s, Last(keys)), max));
      ChunksFlatten(OfGroup(s, Last(keys)), max);
      ChunksFit(OfGroup(s, Last(keys)), max);
    }
  }

  lemma {:induction false} BatchesOfProper<W>(s: seq<Item<W>>, keys: seq<string>, max: nat)
    requires 0 < max
    ensures forall b | b in BatchesOf(s, keys, max) :: ProperBatch(b, max)
    decreases |keys|
  {
    if keys != [] {
      var mine := OfGroup(s, Last(keys));
      BatchesOfProper(s, Front(keys), max);
      ChunksFit(mine, max);
      OfGroupMember(s, Last(keys));
      forall b: seq<Item<W>> | b in Chunks(mine, max)
        ensures ProperBatch(b, max)
      {
        forall i | 0 <= i < |b|
          ensures b[i].group == Last(keys)
        {
          assert b[i] in b;
        }
      }
    }
  }

  /** Every body is within the cap and single-resource, and there are no more bodies than entries. */
  lemma BatchesProper<W(!new)>(s: seq<Item<W>>, max: nat)
    requires 0 < max
    ensures forall b | b in Batches(s, max) :: ProperBatch(b, max)
    ensures |Batches(s, max)| <= |s|
    ensures s != [] ==> Batches(s, max) != []
  {
    BatchesOfProper(s, GroupKeys(s), max);
    OfGroupLength(s, GroupKeys(s), max);
    BatchesKeepContents(s, max);
    assert |multiset(Flatten(Batches(s, max)))| == |multiset(s)|;
  }

  // ---------------------------------------------------------------------------
  // As few as the cap allows
  // ---------------------------------------------------------------------------

  function CeilDiv(n: nat, max: nat): nat
    requires 0 < max
  {
    (n + max - 1) / max
  }

  /** Each group's size over the cap, rounded up, and summed. */
  function Needed<W>(s: seq<Item<W>>, keys: seq<string>, max: nat): nat
    requires 0 < max
  {
    if keys == [] then 0 else Needed(s, Front(keys), max) + CeilDiv(|OfGroup(s, Last(keys))|, max)
  }

  lemma {:induction false} ChunksNumber<T>(s: seq<T>, max: nat)
    requires 0 < max
    ensures |Chunks(s, max)| == CeilDiv(|s|, max)
    decreases |s|
  {
    if max < |s| {
      ChunksNumber(s[max..], max);
      var rest := CeilDiv(|s| - max, max);
      Quotient(|s| + max - 1, max, rest + 1);
    } else if s != [] {
      Quotient(|s| + max - 1, max, 1);
    } else {
      Quotient(max - 1, max, 0);
    }
  }

  lemma {:induction false} BatchesNumber<W>(s: seq<Item<W>>, keys: seq<string>, max: nat)
    requires 0 < max
    ensures |BatchesOf(s, keys, max)| == Needed(s, keys, max)
    decreases |keys|
  {
    if keys != [] {
      hide Chunks, OfGroup, CeilDiv;
      BatchesNumber(s, Front(keys), max);
      ChunksNumber(OfGroup(s, Last(keys)), max);
    }
  }

  function CountOf<W>(bodies: seq<seq<Item<W>>>, k: string): nat {
    if bodies == [] then 0
    else CountOf(bodies[1..], k) + if bodies[0] != [] && bodies[0][0].group == k then 1 else 0
  }

  function CountIn<W>(bodies: seq<seq<Item<W>>>, keys: seq<string>): nat {
    if keys == [] then 0 else CountIn(bodies, Front(keys)) + CountOf(bodies, Last(keys))
  }

  lemma {:induction false} CountInStep<W>(bodies: seq<seq<Item<W>>>, keys: seq<string>)
    requires bodies != [] && bodies[0] != []
    requires forall i, j | 0 <= i < j < |keys| :: keys[i] != keys[j]
    ensures CountIn(bodies, keys) == CountIn(bodies[1..], keys) + if bodies[0][0].group in keys then 1 else 0
    decreases |keys|
  {
    if keys != [] {
      CountInStep(bodies, Front(keys));
      assert keys == Front(keys) + [Last(keys)];
      OnlyLast(keys);
    }
  }

  lemma {:induction false} CountInBound<W>(bodies: seq<seq<Item<W>>>, keys: seq<string>)
    requires forall i, j | 0 <= i < j < |keys| :: keys[i] != keys[j]
    requires forall b | b in bodies :: b != []
    ensures CountIn(bodies, keys) <= |bodies|
    decreases |bodies|
  {
    if bodies != [] {
      assert forall b | b in bodies[1..] :: b in bodies;
      assert bodies[0] in bodies;
      CountInBound(bodies[1..], keys);
      CountInStep(bodies, keys);
    } else {
      CountInNone(bodies, keys);
    }
  }

  lemma {:induction false} CountInNone<W>(bodies: seq<seq<Item<W>>>, keys: seq<string>)
    requires bodies == []
    ensures CountIn(bodies, keys) == 0
    decreases |keys|
  {
    if keys != [] { CountInNone(bodies, Front(keys)); }
  }

  lemma ProperOfGroup<W>(b: seq<Item<W>>, max: nat, k: string)
    requires ProperBatch(b, max)
    ensures b[0].group != k ==> |OfGroup(b, k)| == 0
    ensures |OfGroup(b, k)| <= max
  {
    OfGroupItems(b, k);
    OfGroupShort(b, k);
  }

  lemma {:induction false} OfGroupShort<W>(s: seq<Item<W>>, k: string)
    ensures |OfGroup(s, k)| <= |s|
    decreases |s|
  {
    if s != [] { OfGroupShort(Front(s), k); }
  }

  /** Proper bodies carry no more of a group than their number allows. */
  lemma {:induction false} CarriesAtMost<W>(bodies: seq<seq<Item<W>>>, max: nat, k: string)
    requires forall b | b in bodies :: ProperBatch(b, max)
    ensures |OfGroup(Flatten(bodies), k)| <= CountOf(bodies, k) * max
    decreases |bodies|
  {
    if bodies != [] {
      var head, count := bodies[0], CountOf(bodies[1..], k);
      assert head in bodies && ProperBatch(head, max) && forall b | b in bodies[1..] :: b in bodies;
      hide OfGroup, ProperBatch;
      CarriesAtMost(bodies[1..], max, k);
      OfGroupConcat(head, Flatten(bodies[1..]), k);
      ProperOfGroup(head, max, k);
      assert (count + 1) * max == count * max + max;
    }
  }

  lemma {:induction false} NeededAtMost<W>(s: seq<Item<W>>, bodies: seq<seq<Item<W>>>, keys: seq<string>, max: nat)
    requires 0 < max && (forall b | b in bodies :: ProperBatch(b, max))
    requires forall k :: |OfGroup(s, k)| == |OfGroup(Flatten(bodies), k)|
    ensures Needed(s, keys, max) <= CountIn(bodies, keys)
    decreases |keys|
  {
    if keys != [] {
      hide OfGroup, ProperBatch, Flatten, CountOf;
      var k := Last(keys);
      NeededAtMost(s, bodies, Front(keys), max);
      CarriesAtMost(bodies, max, k);
      CeilDivAtMost(|OfGroup(s, k)|, max, CountOf(bodies, k));
    }
  }

  lemma CeilDivAtMost(n: nat, max: nat, m: nat)
    requires 0 < max && n <= m * max
    ensures CeilDiv(n, max) <= m
  {
    var q := CeilDiv(n, max);
    assert q * max <= n + max - 1 && (m + 1) * max == m * max + max;
    if m < q { Scales(m + 1, q, max); }
  }

  lemma SameContentsSameGroup<W(!new)>(a: seq<Item<W>>, b: seq<Item<W>>, k: string)
    requires multiset(a) == multiset(b)
    ensures |OfGroup(a, k)| == |OfGroup(b, k)|
  {
    var mine, theirs := multiset(OfGroup(a, k)), multiset(OfGroup(b, k));
    OfGroupMember(a, k);
    OfGroupMember(b, k);
    forall x: Item<W>
      ensures mine[x] == theirs[x]
    {
      OfGroupCount(a, x);
      OfGroupCount(b, x);
      if x.group != k { assert x !in OfGroup(a, k) && x !in OfGroup(b, k); }
    }
    MultisetExtensional(mine, theirs);
    assert |OfGroup(a, k)| == |mine| && |OfGroup(b, k)| == |theirs|;
  }

  /**
   * The bodies number each group's size over the cap, rounded up, and no other
   * way to send the same entries in proper bodies makes do with fewer.
   */
  lemma FewestBodies<W(!new)>(s: seq<Item<W>>, max: nat, bodies: seq<seq<Item<W>>>)
    requires 0 < max
    ensures |Batches(s, max)| == Needed(s, GroupKeys(s), max)
    ensures (forall b | b in bodies :: ProperBatch(b, max)) && multiset(Flatten(bodies)) == multiset(s) ==>
              |Batches(s, max)| <= |bodies|
  {
    hide OfGroup, Flatten, CeilDiv, Needed, CountIn;
    BatchesNumber(s, GroupKeys(s), max);
    if (forall b | b in bodies :: ProperBatch(b, max)) && multiset(Flatten(bodies)) == multiset(s) {
      forall k
        ensures |OfGroup(s, k)| == |OfGroup(Flatten(bodies), k)|
      {
        SameContentsSameGroup(s, Flatten(bodies), k);
      }
      GroupKeysCover(s);
      NeededAtMost(s, bodies, GroupKeys(s), max);
      CountInBound(bodies, GroupKeys(s));
    }
  }

  // ---------------------------------------------------------------------------
  // When nothing moves at all
  // ---------------------------------------------------------------------------

  /** The items of each group stand next to each other. */
  predicate Contiguous<W>(s: seq<Item<W>>) {
    forall i, j, k | 0 <= i < j < k < |s| && s[i].group == s[k].group :: s[j].group == s[i].group
  }

  lemma {:induction false} OfGroupItems<W>(s: seq<Item<W>>, g: string)
    ensures forall i | 0 <= i < |OfGroup(s, g)| :: OfGroup(s, g)[i].group == g && OfGroup(s, g)[i] in s
    decreases |s|
  {
    if s != [] {
      OfGroupItems(Front(s), g);
      assert s == Front(s) + [Last(s)];
    }
  }

  /** The groups one after the other. */
  function Grouped<W>(s: seq<Item<W>>, keys: seq<string>): seq<Item<W>> {
    if keys == [] then [] else Grouped(s, Front(keys)) + OfGroup(s, Last(keys))
  }

  lemma {:induction false} BatchesAreGrouped<W>(s: seq<Item<W>>, keys: seq<string>, max: nat)
    requires 0 < max
    ensures Flatten(BatchesOf(s, keys, max)) == Grouped(s, keys)
    decreases |keys|
  {
    if keys != [] {
      hide Chunks, OfGroup, Flatten;
      BatchesAreGrouped(s, Front(keys), max);
      FlattenConcat(BatchesOf(s, Front(keys), max), Chunks(OfGroup(s, Last(keys)), max));
      ChunksFlatten(OfGroup(s, Last(keys)), max);
    } else {
      assert Flatten<Item<W>>([]) == [];
    }
  }

  lemma {:induction false} GroupedIsContiguous<W>(s: seq<Item<W>>, keys: seq<string>)
    requires forall i, j | 0 <= i < j < |keys| :: keys[i] != keys[j]
    ensures Contiguous(Grouped(s, keys)) && forall x | x in Grouped(s, keys) :: x.group in keys
    decreases |keys|
  {
    if keys != [] {
      var a, b := Grouped(s, Front(keys)), OfGroup(s, Last(keys));
      GroupedIsContiguous(s, Front(keys));
      OfGroupItems(s, Last(keys));
      assert keys == Front(keys) + [Last(keys)];
      ContiguousConcat(a, b, Last(keys));
    }
  }

  lemma ContiguousConcat<W>(a: seq<Item<W>>, b: seq<Item<W>>, g: string)
    requires Contiguous(a) && (forall x | x in a :: x.group != g) && (forall i | 0 <= i < |b| :: b[i].group == g)
    ensures Contiguous(a + b)
  {
    var s := a + b;
    forall i, j, k | 0 <= i < j < k < |s| && s[i].group == s[k].group
      ensures s[j].group == s[i].group
    {
      assert i < |a| ==> s[i] in a;
    }
  }

  lemma KeyAt<W>(s: seq<Item<W>>, g: string) returns (i: nat)
    requires g in GroupKeys(s)
    ensures i < |s| && s[i].group == g
  {
    GroupKeysCover(s);
    OfGroupItems(s, g);
    var y := OfGroup(s, g)[0];
    assert y in s;
    i :| i < |s| && s[i] == y;
  }

  /** A group that comes again at the end of a contiguous sequence is the one that stood there. */
  lemma ComesAgain<W>(s: seq<Item<W>>, x: Item<W>)
    requires Contiguous(s + [x]) && x.group in GroupKeys(s)
    ensures s != [] && Last(s).group == x.group
  {
    hide GroupKeys;
    var i := KeyAt(s, x.group);
    var t := s + [x];
    assert t[i].group == t[|s|].group;
    if i < |s| - 1 { assert t[|s| - 1].group == t[i].group; }
  }

  lemma ContiguousFront<W>(s: seq<Item<W>>)
    requires s != [] && Contiguous(s)
    ensures Contiguous(Front(s))
  {
  }

  lemma {:induction false} LastKey<W>(s: seq<Item<W>>)
    requires s != [] && Contiguous(s)
    ensures GroupKeys(s) != [] && Last(GroupKeys(s)) == Last(s).group
    decreases |s|
  {
    if Last(s).group in GroupKeys(Front(s)) {
      assert s == Front(s) + [Last(s)];
      ContiguousFront(s);
      ComesAgain(Front(s), Last(s));
      LastKey(Front(s));
    }
  }

  lemma {:induction false} GroupedAppend<W>(s: seq<Item<W>>, x: Item<W>, keys: seq<string>)
    requires x.group !in keys
    ensures Grouped(s + [x], keys) == Grouped(s, keys)
    decreases |keys|
  {
    if keys != [] {
      assert keys == Front(keys) + [Last(keys)];
      GroupedAppend(s, x, Front(keys));
      assert Front(s + [x]) == s;
    }
  }

  lemma {:induction false} ContiguousStays<W>(s: seq<Item<W>>)
    requires Contiguous(s)
    ensures Grouped(s, GroupKeys(s)) == s
    decreases |s|
  {
    if s != [] {
      hide Contiguous;
      var f, x := Front(s), Last(s);
      var keys := GroupKeys(f);
      assert s == f + [x];
      ContiguousFront(s);
      ContiguousStays(f);
      GroupKeysCover(f);
      if x.group in keys {
        ComesAgain(f, x);
        LastKey(f);
        OnlyLast(keys);
        GroupedAppend(f, x, Front(keys));
        Assoc(Grouped(f, Front(keys)), OfGroup(f, x.group), [x]);
      } else {
        GroupedAppend(f, x, keys);
        assert Front(keys + [x.group]) == keys;
        assert OfGroup(s, x.group) == [x];
      }
    }
  }

  lemma OnlyLast(keys: seq<string>)
    requires keys != [] && forall i, j | 0 <= i < j < |keys| :: keys[i] != keys[j]
    ensures Last(keys) !in Front(keys)
  {
  }

  /** Batching sends a slice in its own order exactly when the items of each group already stand together. */
  lemma BatchesKeepOrderIff<W>(s: seq<Item<W>>, max: nat)
    requires 0 < max
    ensures Flatten(Batches(s, max)) == s <==> Contiguous(s)
  {
    hide Contiguous, Flatten, Grouped;
    BatchesAreGrouped(s, GroupKeys(s), max);
    GroupKeysCover(s);
    GroupedIsContiguous(s, GroupKeys(s));
    if Contiguous(s) { ContiguousStays(s); }
  }

  lemma ShortIsContiguous<W>(s: seq<Item<W>>)
    requires |s| <= 2
    ensures Contiguous(s)
  {
  }

  // ---------------------------------------------------------------------------
  // The loops
  // ---------------------------------------------------------------------------

  lemma ChunksStep<T>(s: seq<T>, n: nat, max: nat)
    requires 0 < max && s != [] && n == Min(max, |s|)
    ensures Chunks(s, max) == [s[..n]] + Chunks(s[n..], max)
  {
    if |s| <= max {
      assert s[..n] == s;
    }
  }

  /** Cuts one group's items into chunks, front to back. */
  method ChunkLoop<T>(s: seq<T>, max: nat) returns (out: seq<seq<T>>)
    requires 0 < max
    ensures out == Chunks(s, max)
  {
    out := [];
    var i := 0;
    while i < |s|
      invariant 0 <= i <= |s|
      invariant out + Chunks(s[i..], max) == Chunks(s, max)
    {
      var end := if i + max < |s| then i + max else |s|;
      ChunksStep(s[i..], end - i, max);
      assert s[i..][..end - i] == s[i..end] && s[i..][end - i..] == s[end..];
      assert out + ([s[i..end]] + Chunks(s[end..], max)) == out + [s[i..end]] + Chunks(s[end..], max);
      out := out + [s[i..end]];
      i := end;
    }
  }

  /** One pass to bucket the slice by group, then one pass over the buckets. */
  method GroupIntoBatches<W>(slice: seq<Item<W>>, max: nat) returns (out: seq<seq<Item<W>>>)
    requires 0 < max
    ensures out == Batches(slice, max)
  {
    var order: seq<string> := [];
    var byGroup: map<string, seq<Item<W>>> := map[];
    for i := 0 to |slice|
      invariant order == GroupKeys(slice[..i])
      invariant byGroup.Keys == set k | k in order
      invariant forall k | k in byGroup :: byGroup[k] == OfGroup(slice[..i], k)
    {
      var item := slice[i];
      var seen := slice[..i];
      assert Front(slice[..i + 1]) == seen && Last(slice[..i + 1]) == item;
      if item.group in byGroup {
        byGroup := byGroup[item.group := byGroup[item.group] + [item]];
      } else {
        GroupKeysCover(seen);
        order := order + [item.group];
        byGroup := byGroup[item.group := [item]];
      }
    }
    assert slice[..|slice|] == slice;
    out := [];
    for i := 0 to |order|
      invariant out == BatchesOf(slice, order[..i], max)
    {
      assert Front(order[..i + 1]) == order[..i] && Last(order[..i + 1]) == order[i];
      var chunks := ChunkLoop(byGroup[order[i]], max);
      out := out + chunks;
    }
    assert order[..|order|] == order;
  }
}
