/**
 * The bounded FIFO in front of the sender. The object keeps an array and a head
 * index; what it stands for is the plain sequence after the head, which drops
 * its oldest elements when it grows past capacity.
 */
module Queues {
  import opened Sequences

  /** The newest `cap` elements. */
  function Newest<T>(s: seq<T>, cap: nat): seq<T> {
    s[Overflow(s, cap)..]
  }

  /** How many of the oldest elements do not fit. */
  function Overflow<T>(s: seq<T>, cap: nat): (n: nat)
    ensures n <= |s|
  {
    if |s| > cap then |s| - cap else 0
  }

  function Take<T>(s: seq<T>, n: nat): seq<T> { s[..Min(n, |s|)] }

  function Rest<T>(s: seq<T>, n: nat): seq<T> { s[Min(n, |s|)..] }

  /** Pushing a run one element at a time. */
  function PushAll<T>(s: seq<T>, run: seq<T>, cap: nat): seq<T>
  {
    if run == [] then s else Newest(PushAll(s, Front(run), cap) + [Last(run)], cap)
  }

  lemma {:induction false} PushAllIsNewest<T>(s: seq<T>, run: seq<T>, cap: nat)
    requires |s| <= cap
    ensures PushAll(s, run, cap) == Newest(s + run, cap)
    decreases |run|
  {
    if run == [] {
      assert s + run == s;
    } else {
      PushAllIsNewest(s, Front(run), cap);
      assert s + run == (s + Front(run)) + [Last(run)];
    }
  }

  /**
   * Handing a slice out and putting it back changes nothing but the clock: the
   * queue ends as if the slice had never left, and has lost exactly as many
   * entries as it would have lost anyway.
   */
  lemma TakePushUnshift<T>(s: seq<T>, n: nat, run: seq<T>, cap: nat)
    requires |s| <= cap
    ensures var held := PushAll(Rest(s, n), run, cap);
            && Newest(Take(s, n) + held, cap) == PushAll(s, run, cap)
            && Overflow(Rest(s, n) + run, cap) + Overflow(Take(s, n) + held, cap) == Overflow(s + run, cap)
  {
    hide PushAll;
    PushAllIsNewest(s, run, cap);
    PushAllIsNewest(Rest(s, n), run, cap);
    assert s == Take(s, n) + Rest(s, n);
    assert s + run == Take(s, n) + (Rest(s, n) + run);
    NewestTwice(Take(s, n), Rest(s, n) + run, cap);
  }

  /** Cutting to capacity before a run is put in front changes nothing. */
  lemma NewestTwice<T>(front: seq<T>, back: seq<T>, cap: nat)
    ensures Newest(front + Newest(back, cap), cap) == Newest(front + back, cap) || |front| > cap
    ensures |front| <= cap ==> Newest(front + Newest(back, cap), cap) == Newest(front + back, cap)
    ensures Overflow(back, cap) + Overflow(front + Newest(back, cap), cap) == Overflow(front + back, cap)
  {
  }

  lemma Overlaid<T>(before: seq<T>, after: seq<T>, at: nat, run: seq<T>)
    requires |before| == |after| && at + |run| <= |before|
    requires forall k | 0 <= k < |run| :: after[at + k] == run[k]
    requires forall k | at + |run| <= k < |after| :: after[k] == before[k]
    ensures after[at..] == run + before[at + |run|..]
  {
  }

  class BoundedQueue<T> {
    const capacity: nat
    var items: seq<T>
    var head: nat
    var droppedCount: nat

    ghost predicate Valid()
      reads this
    {
      head <= |items| && |items| - head <= capacity
    }

    /** What is waiting, oldest first. */
    ghost function Contents(): seq<T>
      reads this
      requires head <= |items|
    {
      items[head..]
    }

    constructor (capacity: nat)
      ensures Valid() && Contents() == [] && droppedCount == 0 && this.capacity == capacity
    {
      this.capacity := capacity;
      items, head, droppedCount := [], 0, 0;
    }

    function Size(): nat
      reads this
      requires head <= |items|
    {
      |items| - head
    }

    method Push(item: T)
      requires Valid()
      modifies this
      ensures Valid() && Contents() == Newest(old(Contents()) + [item], capacity)
      ensures droppedCount == old(droppedCount) + Overflow(old(Contents()) + [item], capacity)
    {
      items := items + [item];
      assert Contents() == old(Contents()) + [item];
      Trim();
      Compact();
    }

    method Snapshot() returns (out: seq<T>)
      requires Valid()
      ensures out == Contents()
    {
      out := items[head..];
    }

    method TakeFront(n: nat) returns (out: seq<T>)
      requires Valid()
      modifies this
      ensures Valid() && out == Take(old(Contents()), n) && Contents() == Rest(old(Contents()), n)
      ensures droppedCount == old(droppedCount)
    {
      var end := Min(head + n, |items|);
      out := items[head..end];
      head := end;
      Compact();
    }

    /** Puts a run in front: over the consumed prefix where it fits, by concatenation where not. */
    method Unshift(run: seq<T>)
      requires Valid()
      modifies this
      ensures Valid() && Contents() == Newest(run + old(Contents()), capacity)
      ensures droppedCount == old(droppedCount) + Overflow(run + old(Contents()), capacity)
    {
      if |run| == 0 {
        assert run + Contents() == Contents();
        return;
      }
      if |run| <= head {
        head := head - |run|;
        var i := 0;
        while i < |run|
          invariant 0 <= i <= |run|
          invariant head == old(head) - |run| && |items| == |old(items)|
          invariant forall k | 0 <= k < i :: items[head + k] == run[k]
          invariant forall k | old(head) <= k < |items| :: items[k] == old(items)[k]
          invariant droppedCount == old(droppedCount)
        {
          items := items[head + i := run[i]];
          i := i + 1;
        }
        Overlaid(old(items), items, head, run);
      } else {
        items := run + items[head..];
        head := 0;
        assert Contents() == run + old(Contents());
      }
      Trim();
    }

    method Clear() returns (n: nat)
      requires Valid()
      modifies this
      ensures Valid() && Contents() == [] && n == |old(Contents())| && droppedCount == old(droppedCount)
    {
      n := Size();
      items := [];
      head := 0;
    }

    /** Drops from the front until within capacity. */
    method Trim()
      requires head <= |items|
      modifies this`head, this`droppedCount
      ensures Valid() && Contents() == Newest(old(Contents()), capacity)
      ensures droppedCount == old(droppedCount) + Overflow(old(Contents()), capacity)
    {
      while |items| - head > capacity
        invariant old(head) <= head <= |items|
        invariant head == old(head) || |items| - head >= capacity
        invariant droppedCount - old(droppedCount) == head - old(head)
      {
        head := head + 1;
        droppedCount := droppedCount + 1;
      }
    }

    /** Shifts the waiting items down to index 0 when enough of the array lies before them. */
    method Compact()
      requires Valid()
      modifies this`items, this`head
      ensures Valid() && Contents() == old(Contents())
    {
      if head > 64 && head * 2 >= |items| {
        items := items[head..];
        head := 0;
      }
    }
  }
}
