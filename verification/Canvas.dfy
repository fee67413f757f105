/** Cards placed on a fixed canvas: making a rectangle legal, and finding room for a new one. */
module Canvas {
  import opened Sequences

  const GRID := 20
  const CANVAS_WIDTH := 1620
  const MIN_WIDGET_W := 160
  const MIN_WIDGET_H := 120
  const MAX_WIDGET_H := 3000
  const MAX_WIDGET_Y := 40000

  datatype Rect = Rect(x: int, y: int, w: int, h: int)

  /** What a drag leaves, before it is snapped. */
  datatype Loose = Loose(x: real, y: real, w: real, h: real)

  /** `Math.round(n / GRID) * GRID`, halves upwards. */
  function SnapToGrid(n: real): int { (n / (GRID as real) + 0.5).Floor * GRID }

  function Clamp(n: int, lo: int, hi: int): int { Min(hi, Max(lo, n)) }

  function Normalise(r: Loose): Rect {
    var w := Clamp(SnapToGrid(r.w), MIN_WIDGET_W, CANVAS_WIDTH);
    var h := Clamp(SnapToGrid(r.h), MIN_WIDGET_H, MAX_WIDGET_H);
    Rect(Clamp(SnapToGrid(r.x), 0, CANVAS_WIDTH - w), Clamp(SnapToGrid(r.y), 0, MAX_WIDGET_Y), w, h)
  }

  predicate OnGrid(n: int) { n % GRID == 0 }

  /** On the canvas, on the grid, and what the stored schema accepts. */
  predicate Legal(r: Rect) {
    && OnGrid(r.x) && OnGrid(r.y) && OnGrid(r.w) && OnGrid(r.h)
    && MIN_WIDGET_W <= r.w <= CANVAS_WIDTH && MIN_WIDGET_H <= r.h <= MAX_WIDGET_H
    && 0 <= r.x && r.x + r.w <= CANVAS_WIDTH && 0 <= r.y <= MAX_WIDGET_Y
  }

  function AsLoose(r: Rect): Loose { Loose(r.x as real, r.y as real, r.w as real, r.h as real) }

  lemma SnapLands(n: real)
    ensures OnGrid(SnapToGrid(n)) && -10.0 <= SnapToGrid(n) as real - n <= 10.0
  {
    var k := (n / 20.0 + 0.5).Floor;
    assert k as real <= n / 20.0 + 0.5 < k as real + 1.0;
  }

  lemma SnapKeeps(n: int)
    requires OnGrid(n)
    ensures SnapToGrid(n as real) == n
  {
    var k := n / GRID;
    assert n == k * GRID;
    assert n as real / 20.0 == k as real;
  }

  lemma WidthOnGrid(r: Loose)
    ensures OnGrid(CANVAS_WIDTH - Normalise(r).w)
  {
    SnapLands(r.w);
    hide SnapToGrid;
  }

  /** Snapping does not carry a number across a grid line. */
  lemma SnapBeyond(n: real, line: int)
    requires OnGrid(line)
    ensures n <= line as real ==> SnapToGrid(n) <= line
    ensures n >= line as real ==> SnapToGrid(n) >= line
  {
    SnapLands(n);
  }

  predicate Near(a: int, b: real) { -10.0 <= a as real - b <= 10.0 }

  /**
   * Whatever was dragged, what is kept is legal; what is legal is kept as it is;
   * what is in range moves by half a cell at most; and what is out of it comes to
   * the end of the range it is beyond.
   */
  lemma NormaliseIsLegal(r: Loose, s: Rect)
    ensures Legal(Normalise(r))
    ensures MIN_WIDGET_W as real <= r.w <= CANVAS_WIDTH as real ==> Near(Normalise(r).w, r.w)
    ensures MIN_WIDGET_H as real <= r.h <= MAX_WIDGET_H as real ==> Near(Normalise(r).h, r.h)
    ensures 0.0 <= r.x <= (CANVAS_WIDTH - Normalise(r).w) as real ==> Near(Normalise(r).x, r.x)
    ensures 0.0 <= r.y <= MAX_WIDGET_Y as real ==> Near(Normalise(r).y, r.y)
    ensures (r.w <= 160.0 ==> Normalise(r).w == 160) && (r.w >= 1620.0 ==> Normalise(r).w == 1620)
    ensures (r.h <= 120.0 ==> Normalise(r).h == 120) && (r.h >= 3000.0 ==> Normalise(r).h == 3000)
    ensures r.x <= 0.0 ==> Normalise(r).x == 0
    ensures r.x >= (CANVAS_WIDTH - Normalise(r).w) as real ==> Normalise(r).x == CANVAS_WIDTH - Normalise(r).w
    ensures (r.y <= 0.0 ==> Normalise(r).y == 0) && (r.y >= 40000.0 ==> Normalise(r).y == 40000)
    ensures Legal(s) <==> Normalise(AsLoose(s)) == s
  {
    hide SnapToGrid;
    WidthOnGrid(r);
    SnapBeyond(r.x, CANVAS_WIDTH - Normalise(r).w);
    SnapBeyond(r.x, 0);
    SnapBeyond(r.y, 0);
    SnapBeyond(r.y, 40000);
    SnapBeyond(r.w, 160);
    SnapBeyond(r.w, 1620);
    SnapBeyond(r.h, 120);
    SnapBeyond(r.h, 3000);
    SnapLands(r.x);
    SnapLands(r.y);
    SnapLands(r.w);
    SnapLands(r.h);
    LegalKept(s);
    if Normalise(AsLoose(s)) == s {
      SnapLands(s.x as real);
      SnapLands(s.y as real);
      SnapLands(s.w as real);
      SnapLands(s.h as real);
    }
  }

  lemma LegalKept(s: Rect)
    ensures Legal(s) ==> Normalise(AsLoose(s)) == s
  {
    if Legal(s) {
      SnapKeeps(s.x);
      SnapKeeps(s.y);
      SnapKeeps(s.w);
      SnapKeeps(s.h);
    }
  }

  predicate Overlap(a: Rect, b: Rect) { a.x < b.x + b.w && b.x < a.x + a.w && a.y < b.y + b.h && b.y < a.y + a.h }

  predicate Free(taken: seq<Rect>, r: Rect) { forall i | 0 <= i < |taken| :: !Overlap(r, taken[i]) }

  /** The lowest edge on the canvas. */
  function Bottom(taken: seq<Rect>): (m: int)
    ensures m >= 0 && forall i | 0 <= i < |taken| :: taken[i].y + taken[i].h <= m
    ensures m == 0 || exists i | 0 <= i < |taken| :: taken[i].y + taken[i].h == m
  {
    if taken == [] then 0 else Max(Bottom(Front(taken)), Last(taken).y + Last(taken).h)
  }

  /** A position the scan may try for a card `w` wide. */
  predicate Position(x: int, y: int, w: int) { 0 <= x && 0 <= y && OnGrid(x) && OnGrid(y) && x + w <= CANVAS_WIDTH }

  /** No position before this one, reading left to right and top to bottom, has room. */
  ghost predicate NoneBefore(taken: seq<Rect>, x: int, y: int, w: int, h: int) {
    forall px, py | Position(px, py, w) && (py < y || (py == y && px < x)) :: !Free(taken, Rect(px, py, w, h))
  }

  /** Below everything there is room. */
  lemma BelowIsFree(taken: seq<Rect>, x: int, y: int, w: int, h: int)
    requires y >= Bottom(taken)
    ensures Free(taken, Rect(x, y, w, h))
  {
  }

  /**
   * The first free grid position in row-major order. A card no wider than the
   * canvas always finds one; a wider one goes below everything.
   */
  method FindFreeSlot(taken: seq<Rect>, w: int, h: int) returns (x: int, y: int)
    ensures w <= CANVAS_WIDTH && h >= 0 ==>
              Position(x, y, w) && Free(taken, Rect(x, y, w, h)) && NoneBefore(taken, x, y, w, h)
    ensures w > CANVAS_WIDTH ==> x == 0 && OnGrid(y)
    ensures h >= 0 ==> Free(taken, Rect(x, y, w, h)) && y <= Bottom(taken) + h + GRID + 10
  {
    var maxY := Bottom(taken) + h + GRID;
    y := 0;
    while y <= maxY
      invariant 0 <= y && OnGrid(y) && NoneBefore(taken, 0, y, w, h)
      invariant h >= 0 ==> y <= maxY + GRID
      decreases maxY - y
    {
      x := 0;
      while x + w <= CANVAS_WIDTH
        invariant 0 <= x && OnGrid(x) && NoneBefore(taken, x, y, w, h)
        decreases CANVAS_WIDTH - w - x
      {
        if Free(taken, Rect(x, y, w, h)) { return; }
        NextInRow(taken, x, y, w, h);
        x := x + GRID;
      }
      NextRow(taken, x, y, w, h);
      y := y + GRID;
    }
    x := 0;
    SnapLands(maxY as real);
    if w <= CANVAS_WIDTH && h >= 0 {
      RowBelow(taken, y, w, h);
    }
    y := SnapToGrid(maxY as real);
    if h >= 0 { BelowIsFree(taken, x, y, w, h); }
  }

  lemma SameCell(a: int, b: int)
    requires OnGrid(a) && OnGrid(b) && a <= b < a + GRID
    ensures a == b
  {
    assert a == a / GRID * GRID && b == b / GRID * GRID;
  }

  lemma NextInRow(taken: seq<Rect>, x: int, y: int, w: int, h: int)
    requires OnGrid(x) && NoneBefore(taken, x, y, w, h) && !Free(taken, Rect(x, y, w, h))
    ensures NoneBefore(taken, x + GRID, y, w, h)
  {
    hide Free;
    forall px, py | Position(px, py, w) && (py < y || (py == y && px < x + GRID))
      ensures !Free(taken, Rect(px, py, w, h))
    {
      if py == y && px >= x { SameCell(x, px); }
    }
  }

  lemma NextRow(taken: seq<Rect>, x: int, y: int, w: int, h: int)
    requires OnGrid(y) && x + w > CANVAS_WIDTH && NoneBefore(taken, x, y, w, h)
    ensures NoneBefore(taken, 0, y + GRID, w, h)
  {
    hide Free;
    forall px, py | Position(px, py, w) && (py < y + GRID || (py == y + GRID && px < 0))
      ensures !Free(taken, Rect(px, py, w, h))
    {
      if py >= y { SameCell(y, py); }
    }
  }

  /** Until it has found room the scan is no lower than the first row below everything. */
  lemma RowBelow(taken: seq<Rect>, y: int, w: int, h: int)
    requires w <= CANVAS_WIDTH && h >= 0 && NoneBefore(taken, 0, y, w, h)
    ensures y <= Bottom(taken) + GRID
  {
    var row := (Bottom(taken) + GRID - 1) / GRID * GRID;
    assert Bottom(taken) <= row < Bottom(taken) + GRID && OnGrid(row);
    assert Position(0, row, w);
    BelowIsFree(taken, 0, row, w, h);
  }
}
