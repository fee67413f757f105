/**
 * A filled series: every bucket of the window, left joined to what was measured.
 * Buckets are stepped in local time and converted back, so whether the counts
 * add up depends on the zone.
 */
module Fill {
  import opened Sequences

  /** Where each calendar unit starts in local time, and which unit a local time falls in. */
  datatype Calendar = Calendar(start: int -> int, index: int -> int)

  ghost predicate Lawful(cal: Calendar) {
    && (forall i :: cal.start(i) < cal.start(i + 1))
    && forall l :: cal.start(cal.index(l)) <= l < cal.start(cal.index(l) + 1)
  }

  /** `AT TIME ZONE`, in both directions. Instants are in microseconds. */
  datatype Zone = Zone(local: int -> int, instant: int -> int)

  datatype Window = Window(from: int, to: int)

  /** Which unit an instant is counted in, and the instant a unit's bucket stands at. */
  function UnitOf(cal: Calendar, z: Zone, t: int): int { cal.index(z.local(t)) }

  function BoundaryOf(cal: Calendar, z: Zone, u: int): int { z.instant(cal.start(u)) }

  /** `date_trunc(unit, t AT TIME ZONE tz) AT TIME ZONE tz`. */
  function BucketOf(cal: Calendar, z: Zone, t: int): int { BoundaryOf(cal, z, UnitOf(cal, z, t)) }

  /** Grouping keeps the rows of the window and counts them by bucket. */
  function Measured(cal: Calendar, z: Zone, rows: seq<int>, w: Window, bucket: int): nat {
    if rows == [] then 0
    else Measured(cal, z, Front(rows), w, bucket) +
         if w.from <= Last(rows) < w.to && BucketOf(cal, z, Last(rows)) == bucket then 1 else 0
  }

  function FirstUnit(cal: Calendar, z: Zone, w: Window): int { UnitOf(cal, z, w.from) }

  function LastUnit(cal: Calendar, z: Zone, w: Window): int { UnitOf(cal, z, w.to - 1) }

  datatype Point = Point(bucket: int, count: nat)

  /** `generate_series` from unit `a` to unit `b`, joined: a bucket nothing happened in counts zero. */
  function Series(cal: Calendar, z: Zone, rows: seq<int>, w: Window, a: int, b: int): (s: seq<Point>)
    ensures |s| == if b < a then 0 else b - a + 1
    ensures forall i | 0 <= i < |s| :: s[i].bucket == BoundaryOf(cal, z, a + i)
    decreases b - a + 1
  {
    if b < a then []
    else
      var bucket := BoundaryOf(cal, z, b);
      Series(cal, z, rows, w, a, b - 1) + [Point(bucket, Measured(cal, z, rows, w, bucket))]
  }

  function Filled(cal: Calendar, z: Zone, rows: seq<int>, w: Window): seq<Point> {
    Series(cal, z, rows, w, FirstUnit(cal, z, w), LastUnit(cal, z, w))
  }

  function Total(s: seq<Point>): nat { if s == [] then 0 else Total(Front(s)) + Last(s).count }

  /** How many generated buckets a row at `t` is counted in. */
  function Copies(cal: Calendar, z: Zone, t: int, a: int, b: int): nat
    decreases b - a + 1
  {
    if b < a then 0 else Copies(cal, z, t, a, b - 1) + if BoundaryOf(cal, z, b) == BucketOf(cal, z, t) then 1 else 0
  }

  function CopiesIn(cal: Calendar, z: Zone, t: int, w: Window): nat {
    Copies(cal, z, t, FirstUnit(cal, z, w), LastUnit(cal, z, w))
  }

  ghost predicate Inside(rows: seq<int>, w: Window) { forall t | t in rows :: w.from <= t < w.to }

  // ---------------------------------------------------------------------------
  // What the counts add up to
  // ---------------------------------------------------------------------------

  lemma {:induction false} SeriesEmpty(cal: Calendar, z: Zone, w: Window, a: int, b: int)
    ensures Total(Series(cal, z, [], w, a, b)) == 0
    decreases b - a + 1
  {
    if a <= b { SeriesEmpty(cal, z, w, a, b - 1); }
  }

  lemma {:induction false} SeriesAppend(cal: Calendar, z: Zone, rows: seq<int>, t: int, w: Window, a: int, b: int)
    requires w.from <= t < w.to
    ensures Total(Series(cal, z, rows + [t], w, a, b)) == Total(Series(cal, z, rows, w, a, b)) + Copies(cal, z, t, a, b)
    decreases b - a + 1
  {
    if a <= b {
      hide BucketOf, Total, Measured;
      var bucket := BoundaryOf(cal, z, b);
      SeriesAppend(cal, z, rows, t, w, a, b - 1);
      MeasuredAppend(cal, z, rows, t, w, bucket);
      TotalAppend(Series(cal, z, rows + [t], w, a, b - 1), Point(bucket, Measured(cal, z, rows + [t], w, bucket)));
      TotalAppend(Series(cal, z, rows, w, a, b - 1), Point(bucket, Measured(cal, z, rows, w, bucket)));
    }
  }

  lemma MeasuredAppend(cal: Calendar, z: Zone, rows: seq<int>, t: int, w: Window, bucket: int)
    requires w.from <= t < w.to
    ensures Measured(cal, z, rows + [t], w, bucket) ==
            Measured(cal, z, rows, w, bucket) + if BucketOf(cal, z, t) == bucket then 1 else 0
  {
    assert Front(rows + [t]) == rows;
  }

  lemma TotalAppend(s: seq<Point>, p: Point)
    ensures Total(s + [p]) == Total(s) + p.count
  {
    assert Front(s + [p]) == s;
  }

  /** The sum of the copies of each row. */
  function AllCopies(cal: Calendar, z: Zone, rows: seq<int>, w: Window): nat {
    if rows == [] then 0 else AllCopies(cal, z, Front(rows), w) + CopiesIn(cal, z, Last(rows), w)
  }

  /** Whatever the zone, the filled counts are the rows, each as often as its bucket was generated. */
  lemma {:induction false} FilledCountsCopies(cal: Calendar, z: Zone, rows: seq<int>, w: Window)
    requires Inside(rows, w)
    ensures Total(Filled(cal, z, rows, w)) == AllCopies(cal, z, rows, w)
    decreases |rows|
  {
    var a, b := FirstUnit(cal, z, w), LastUnit(cal, z, w);
    if rows == [] {
      SeriesEmpty(cal, z, w, a, b);
    } else {
      assert rows == Front(rows) + [Last(rows)];
      assert Last(rows) in rows && forall t | t in Front(rows) :: t in rows;
      FilledCountsCopies(cal, z, Front(rows), w);
      SeriesAppend(cal, z, Front(rows), Last(rows), w, a, b);
    }
  }

  lemma {:induction false} OnesAddUp(cal: Calendar, z: Zone, rows: seq<int>, w: Window)
    requires forall t | t in rows :: CopiesIn(cal, z, t, w) == 1
    ensures AllCopies(cal, z, rows, w) == |rows|
    decreases |rows|
  {
    if rows != [] {
      assert rows == Front(rows) + [Last(rows)];
      OnesAddUp(cal, z, Front(rows), w);
    }
  }

  ghost predicate Conserves(cal: Calendar, z: Zone, w: Window) {
    forall rows | Inside(rows, w) :: Total(Filled(cal, z, rows, w)) == |rows|
  }

  /** A window conserves counts exactly when every instant in it has its bucket generated once. */
  lemma ConservesIff(cal: Calendar, z: Zone, w: Window)
    ensures Conserves(cal, z, w) <==> forall t | w.from <= t < w.to :: CopiesIn(cal, z, t, w) == 1
  {
    hide Filled, CopiesIn, AllCopies;
    if Conserves(cal, z, w) {
      forall t | w.from <= t < w.to
        ensures CopiesIn(cal, z, t, w) == 1
      {
        assert Inside([t], w) && Total(Filled(cal, z, [t], w)) == |[t]|;
        FilledCountsCopies(cal, z, [t], w);
        OneRow(cal, z, t, w);
      }
    }
    if forall t | w.from <= t < w.to :: CopiesIn(cal, z, t, w) == 1 {
      forall rows | Inside(rows, w)
        ensures Total(Filled(cal, z, rows, w)) == |rows|
      {
        FilledCountsCopies(cal, z, rows, w);
        OnesAddUp(cal, z, rows, w);
      }
    }
  }

  lemma OneRow(cal: Calendar, z: Zone, t: int, w: Window)
    ensures AllCopies(cal, z, [t], w) == CopiesIn(cal, z, t, w)
  {
    assert Front([t]) == [];
  }

  // ---------------------------------------------------------------------------
  // Zones in which that holds
  // ---------------------------------------------------------------------------

  lemma {:induction false} StartsRise(cal: Calendar, i: int, j: int)
    requires Lawful(cal) && i < j
    ensures cal.start(i) < cal.start(j)
    decreases j - i
  {
    assert cal.start(j - 1) < cal.start(j - 1 + 1);
    if i < j - 1 { StartsRise(cal, i, j - 1); }
  }

  lemma IndexRises(cal: Calendar, l: int, m: int)
    requires Lawful(cal) && l <= m
    ensures cal.index(l) <= cal.index(m)
  {
    if cal.index(m) < cal.index(l) {
      if cal.index(m) + 1 < cal.index(l) { StartsRise(cal, cal.index(m) + 1, cal.index(l)); }
      assert false;
    }
  }

  ghost predicate NeverBack(cal: Calendar, z: Zone) { forall t, u | t <= u :: UnitOf(cal, z, t) <= UnitOf(cal, z, u) }

  /** Some window's series has this unit in it. */
  ghost predicate Generated(cal: Calendar, z: Zone, u: int) {
    exists f, l :: UnitOf(cal, z, f) <= u <= UnitOf(cal, z, l)
  }

  /** No bucket something can fall in stands where another unit's does. */
  ghost predicate BucketsApart(cal: Calendar, z: Zone) {
    forall t, u | Generated(cal, z, u) && u != UnitOf(cal, z, t) :: BoundaryOf(cal, z, u) != BucketOf(cal, z, t)
  }

  lemma {:induction false} OneCopy(cal: Calendar, z: Zone, t: int, a: int, b: int)
    requires a <= UnitOf(cal, z, t) <= b
    requires forall u | a <= u <= b && u != UnitOf(cal, z, t) :: BoundaryOf(cal, z, u) != BucketOf(cal, z, t)
    ensures Copies(cal, z, t, a, b) == 1
    decreases b - a
  {
    hide BucketOf, BoundaryOf;
    OwnBoundary(cal, z, t);
    if UnitOf(cal, z, t) < b {
      OneCopy(cal, z, t, a, b - 1);
      StepCopies(cal, z, t, a, b);
    } else {
      ApartCopies(cal, z, t, a, b - 1);
      StepCopies(cal, z, t, a, b);
    }
  }

  lemma OwnBoundary(cal: Calendar, z: Zone, t: int)
    ensures BoundaryOf(cal, z, UnitOf(cal, z, t)) == BucketOf(cal, z, t)
  {
  }

  lemma StepCopies(cal: Calendar, z: Zone, t: int, a: int, b: int)
    requires a <= b
    ensures Copies(cal, z, t, a, b) == Copies(cal, z, t, a, b - 1) + if BoundaryOf(cal, z, b) == BucketOf(cal, z, t) then 1 else 0
  {
  }

  lemma {:induction false} ApartCopies(cal: Calendar, z: Zone, t: int, a: int, b: int)
    requires forall u | a <= u <= b :: BoundaryOf(cal, z, u) != BucketOf(cal, z, t)
    ensures Copies(cal, z, t, a, b) == 0
    decreases b - a + 1
  {
    if a <= b {
      hide BoundaryOf, BucketOf;
      ApartCopies(cal, z, t, a, b - 1);
      StepCopies(cal, z, t, a, b);
    }
  }

  lemma {:induction false} SomeCopy(cal: Calendar, z: Zone, t: int, u: int, a: int, b: int)
    requires a <= u <= b && BoundaryOf(cal, z, u) == BucketOf(cal, z, t)
    ensures Copies(cal, z, t, a, b) >= 1
    decreases b - a
  {
    hide BoundaryOf, BucketOf;
    StepCopies(cal, z, t, a, b);
    if u < b { SomeCopy(cal, z, t, u, a, b - 1); }
  }

  lemma {:induction false} TwoCopies(cal: Calendar, z: Zone, t: int, u: int, v: int, a: int, b: int)
    requires a <= u < v <= b && BoundaryOf(cal, z, u) == BoundaryOf(cal, z, v) == BucketOf(cal, z, t)
    ensures Copies(cal, z, t, a, b) >= 2
    decreases b - a
  {
    hide BoundaryOf, BucketOf;
    StepCopies(cal, z, t, a, b);
    if v < b { TwoCopies(cal, z, t, u, v, a, b - 1); } else { SomeCopy(cal, z, t, u, a, b - 1); }
  }

  /** Where boundaries convert to different instants and local time never goes back, every row is counted once. */
  lemma SteadyZoneConserves(cal: Calendar, z: Zone, w: Window)
    requires Lawful(cal)
    requires forall t, u | w.from <= t <= u < w.to :: z.local(t) <= z.local(u)
    requires forall i, j | FirstUnit(cal, z, w) <= i < j <= LastUnit(cal, z, w) ::
               BoundaryOf(cal, z, i) != BoundaryOf(cal, z, j)
    ensures Conserves(cal, z, w)
  {
    hide Lawful, Copies, Conserves;
    forall t | w.from <= t < w.to
      ensures CopiesIn(cal, z, t, w) == 1
    {
      IndexRises(cal, z.local(w.from), z.local(t));
      IndexRises(cal, z.local(t), z.local(w.to - 1));
      OneCopy(cal, z, t, FirstUnit(cal, z, w), LastUnit(cal, z, w));
    }
    hide CopiesIn;
    ConservesIff(cal, z, w);
  }

  lemma SteadyWindow(cal: Calendar, z: Zone, w: Window)
    requires NeverBack(cal, z) && BucketsApart(cal, z)
    ensures Conserves(cal, z, w)
  {
    hide Copies, Conserves, BucketOf, BoundaryOf, UnitOf;
    forall t | w.from <= t < w.to
      ensures CopiesIn(cal, z, t, w) == 1
    {
      var a, b := FirstUnit(cal, z, w), LastUnit(cal, z, w);
      forall u | a <= u <= b && u != UnitOf(cal, z, t)
        ensures BoundaryOf(cal, z, u) != BucketOf(cal, z, t)
      {
        assert Generated(cal, z, u);
      }
      OneCopy(cal, z, t, a, b);
    }
    hide CopiesIn;
    ConservesIff(cal, z, w);
  }

  /** What one row of a window that conserves says of its units. */
  lemma ConservedRow(cal: Calendar, z: Zone, f: int, l: int, t: int)
    requires f <= t <= l && Conserves(cal, z, Window(f, l + 1))
    ensures Copies(cal, z, t, UnitOf(cal, z, f), UnitOf(cal, z, l)) == 1
  {
    hide Copies, Conserves;
    ConservesIff(cal, z, Window(f, l + 1));
    assert CopiesIn(cal, z, t, Window(f, l + 1)) == 1;
  }

  ghost predicate AlwaysConserves(cal: Calendar, z: Zone) { forall w :: Conserves(cal, z, w) }

  lemma ConservingNeverBack(cal: Calendar, z: Zone)
    requires AlwaysConserves(cal, z)
    ensures NeverBack(cal, z)
  {
    hide Conserves, UnitOf;
    forall t, u | t <= u
      ensures UnitOf(cal, z, t) <= UnitOf(cal, z, u)
    {
      assert Conserves(cal, z, Window(t, u + 1));
      ConservedRow(cal, z, t, u, t);
    }
  }

  lemma ConservingApart(cal: Calendar, z: Zone, t: int, u: int)
    requires AlwaysConserves(cal, z) && NeverBack(cal, z) && Generated(cal, z, u) && u != UnitOf(cal, z, t)
    ensures BoundaryOf(cal, z, u) != BucketOf(cal, z, t)
  {
    hide Conserves, UnitOf, BoundaryOf, BucketOf, Copies;
    var f, l :| UnitOf(cal, z, f) <= u <= UnitOf(cal, z, l);
    OwnBoundary(cal, z, t);
    if BoundaryOf(cal, z, u) == BucketOf(cal, z, t) {
      if u < UnitOf(cal, z, t) {
        assert t <= f ==> UnitOf(cal, z, t) <= UnitOf(cal, z, f);
        assert Conserves(cal, z, Window(f, t + 1));
        ConservedRow(cal, z, f, t, t);
        TwoCopies(cal, z, t, u, UnitOf(cal, z, t), UnitOf(cal, z, f), UnitOf(cal, z, t));
      } else {
        assert l <= t ==> UnitOf(cal, z, l) <= UnitOf(cal, z, t);
        assert Conserves(cal, z, Window(t, l + 1));
        ConservedRow(cal, z, t, l, t);
        TwoCopies(cal, z, t, UnitOf(cal, z, t), u, UnitOf(cal, z, t), UnitOf(cal, z, l));
      }
    }
  }

  /**
   * A zone conserves counts in every window exactly where time never goes back
   * over a unit's start, and no unit some window generates stands at the same
   * instant as another that something falls in.
   */
  lemma SteadyZoneIff(cal: Calendar, z: Zone)
    ensures AlwaysConserves(cal, z) <==> NeverBack(cal, z) && BucketsApart(cal, z)
  {
    hide Conserves, UnitOf, BoundaryOf, BucketOf, Generated;
    if AlwaysConserves(cal, z) {
      ConservingNeverBack(cal, z);
      forall t, u | Generated(cal, z, u) && u != UnitOf(cal, z, t)
        ensures BoundaryOf(cal, z, u) != BucketOf(cal, z, t)
      {
        ConservingApart(cal, z, t, u);
      }
    }
    if NeverBack(cal, z) && BucketsApart(cal, z) {
      forall w
        ensures Conserves(cal, z, w)
      {
        SteadyWindow(cal, z, w);
      }
    }
  }

  function FixedOffset(offset: int): Zone { Zone(t => t + offset, l => l - offset) }

  lemma FixedBoundary(cal: Calendar, offset: int, i: int, j: int)
    requires Lawful(cal) && i < j
    ensures FixedOffset(offset).instant(cal.start(i)) < FixedOffset(offset).instant(cal.start(j))
  {
    StartsRise(cal, i, j);
  }

  lemma FixedSums(cal: Calendar, offset: int, w: Window)
    requires Lawful(cal)
    ensures Conserves(cal, FixedOffset(offset), w)
  {
    hide Lawful, Conserves;
    var z := FixedOffset(offset);
    forall i, j | FirstUnit(cal, z, w) <= i < j <= LastUnit(cal, z, w)
      ensures z.instant(cal.start(i)) != z.instant(cal.start(j))
    {
      FixedBoundary(cal, offset, i, j);
    }
    SteadyZoneConserves(cal, z, w);
  }

  lemma FixedRises(cal: Calendar, offset: int, rows: seq<int>, w: Window, i: nat, j: nat)
    requires Lawful(cal) && i < j < |Filled(cal, FixedOffset(offset), rows, w)|
    ensures var s := Filled(cal, FixedOffset(offset), rows, w);
            s[i].bucket < s[j].bucket
  {
    hide Lawful, Series, FixedOffset;
    var a := FirstUnit(cal, FixedOffset(offset), w);
    FixedBoundary(cal, offset, a + i, a + j);
  }

  lemma FixedMisses(cal: Calendar, offset: int, rows: seq<int>, w: Window, t: int) returns (i: nat)
    requires Lawful(cal) && w.from <= t < w.to
    ensures var s := Filled(cal, FixedOffset(offset), rows, w);
            i < |s| && s[i].bucket == BucketOf(cal, FixedOffset(offset), t)
  {
    hide Lawful, Series;
    var z := FixedOffset(offset);
    IndexRises(cal, z.local(w.from), z.local(t));
    IndexRises(cal, z.local(t), z.local(w.to - 1));
    i := cal.index(z.local(t)) - FirstUnit(cal, z, w);
  }

  /** In a zone that never changes: counts conserved, buckets in order, none missing. */
  lemma FixedOffsetConserves(cal: Calendar, offset: int, rows: seq<int>, w: Window)
    requires Lawful(cal) && Inside(rows, w)
    ensures var s := Filled(cal, FixedOffset(offset), rows, w);
            && Total(s) == |rows|
            && (forall i, j | 0 <= i < j < |s| :: s[i].bucket < s[j].bucket)
            && (forall t | w.from <= t < w.to :: exists i | 0 <= i < |s| :: s[i].bucket == BucketOf(cal, FixedOffset(offset), t))
  {
    hide Lawful, Filled, BucketOf, FixedOffset, Total;
    var s := Filled(cal, FixedOffset(offset), rows, w);
    FixedSums(cal, offset, w);
    forall i, j | 0 <= i < j < |s|
      ensures s[i].bucket < s[j].bucket
    {
      FixedRises(cal, offset, rows, w, i, j);
    }
    forall t | w.from <= t < w.to
      ensures exists i | 0 <= i < |s| :: s[i].bucket == BucketOf(cal, FixedOffset(offset), t)
    {
      var i := FixedMisses(cal, offset, rows, w, t);
    }
  }

  // ---------------------------------------------------------------------------
  // Zones in which it does not
  // ---------------------------------------------------------------------------

  /** Units of one length. */
  function Even(unit: int): Calendar
    requires unit > 0
  {
    Calendar(i => i * unit, l => l / unit)
  }

  lemma EvenLawful(unit: int)
    requires unit > 0
    ensures Lawful(Even(unit))
  {
    forall i
      ensures Even(unit).start(i) < Even(unit).start(i + 1)
    {
      assert (i + 1) * unit == i * unit + unit;
    }
    forall l
      ensures var i := Even(unit).index(l); Even(unit).start(i) <= l < Even(unit).start(i + 1)
    {
      assert l == l / unit * unit + l % unit;
      assert (l / unit + 1) * unit == l / unit * unit + unit;
    }
  }

  /** Clocks jump ahead by `gap` at instant 0. A local time that never was is read with the offset before. */
  function SpringForward(gap: int): Zone {
    Zone(t => if t < 0 then t else t + gap, l => if l < gap then l else l - gap)
  }

  /**
   * Hourly buckets over an hour that was skipped: the boundary that never was
   * converts to the same instant as the next, and what happened then counts twice.
   */
  lemma SpringForwardDoubles(hour: int)
    requires hour > 0
    ensures Lawful(Even(hour))
    ensures var w := Window(-1, 1);
            && CopiesIn(Even(hour), SpringForward(hour), 0, w) == 2
            && Total(Filled(Even(hour), SpringForward(hour), [0], w)) == 2
  {
    var cal, z, w := Even(hour), SpringForward(hour), Window(-1, 1);
    EvenLawful(hour);
    Divisions(hour);
    hide Lawful;
    assert FirstUnit(cal, z, w) == -1 && LastUnit(cal, z, w) == 1;
    assert BucketOf(cal, z, 0) == 0;
    assert z.instant(cal.start(-1)) == -hour && z.instant(cal.start(0)) == 0 && z.instant(cal.start(1)) == 0;
    assert Copies(cal, z, 0, -1, -2) == 0;
    assert Copies(cal, z, 0, -1, -1) == 0;
    assert Copies(cal, z, 0, -1, 0) == 1;
    assert Copies(cal, z, 0, -1, 1) == 2;
    FilledCountsCopies(cal, z, [0], w);
    OneRow(cal, z, 0, w);
  }

  lemma Divisions(hour: int)
    requires hour > 0
    ensures (-1) / hour == -1 && 0 / hour == 0 && hour / hour == 1
  {
    Quotient(-1, hour, -1);
    Quotient(0, hour, 0);
    Quotient(hour, hour, 1);
  }

  /** Clocks fall back by `gap` at instant 0. A local time that was twice is read as its second. */
  function FallBack(gap: int): Zone {
    Zone(t => if t < 0 then t else t - gap, l => if l < -gap then l else l + gap)
  }

  lemma FallBackUnits(minute: int)
    requires minute > 0
    ensures var cal, z, w := Even(minute), FallBack(60 * minute), Window(-1, 1);
            FirstUnit(cal, z, w) == -1 && LastUnit(cal, z, w) == -60
  {
    Quotient(-1, minute, -1);
    Quotient(-60 * minute, minute, -60);
  }

  /**
   * Buckets shorter than the hour that repeats: a window that opens just before
   * the change starts its series past what the repeated hour falls in, and those
   * rows are in no bucket at all.
   */
  lemma FallBackLoses(minute: int)
    requires minute > 0
    ensures Lawful(Even(minute))
    ensures var w := Window(-1, 1);
            && CopiesIn(Even(minute), FallBack(60 * minute), 0, w) == 0
            && Total(Filled(Even(minute), FallBack(60 * minute), [0], w)) == 0
  {
    var cal, z, w := Even(minute), FallBack(60 * minute), Window(-1, 1);
    EvenLawful(minute);
    hide Lawful, Filled, BucketOf;
    FallBackUnits(minute);
    FilledCountsCopies(cal, z, [0], w);
    OneRow(cal, z, 0, w);
  }
}
