/** Where the teeth stand: the centred row built on (re)initialisation, and the
    mapping from a tooth's displacement to its on-screen pixel position. */
module Layout {
  import opened Physics

  /** Distance between the rest positions of neighbouring teeth. */
  const Spacing: real := 100.0
  /** The row sits this far above the vertical middle of the jaw area. */
  const RaiseAboveMiddle: real := 40.0
  /** Pixels per unit of horizontal displacement (before the gain k). */
  const PixelScale: real := 1200.0

  /** A fresh tooth: no displacement, no velocity, the standard mass. */
  predicate AtRest(b: Body)
  {
    b.x == 0.0 && b.y == 0.0 && b.vx == 0.0 && b.vy == 0.0 && b.mass == Mass
  }

  /** x of the first tooth: half of what the row's span leaves of the width,
      so the margins left of the first and right of the last tooth are equal. */
  function StartX(n: int, width: real): (r: real)
    ensures r == width - (r + Spacing * (n - 1) as real)
  {
    (width - Spacing * (n - 1) as real) / 2.0
  }

  /** The row built for n teeth in a jaw area of the given size. */
  function RowLayout(n: int, width: real, height: real): (row: seq<Body>)
    ensures |row| == (if n < 0 then 0 else n)
    ensures forall i :: 0 <= i < |row| ==> AtRest(row[i])
    ensures forall i :: 0 <= i < |row| ==> row[i].baseY == height / 2.0 - RaiseAboveMiddle
    ensures forall i :: 0 < i < |row| ==> row[i].baseX - row[i - 1].baseX == Spacing
    ensures n >= 1 ==> row[0].baseX + row[n - 1].baseX == width
  {
    var count := if n < 0 then 0 else n;
    seq(count, i => Body(0.0, 0.0, 0.0, 0.0, Mass, StartX(n, width) + i as real * Spacing, height / 2.0 - RaiseAboveMiddle))
  }

  /** The row is mirror-symmetric about the middle of the width: tooth i and
      tooth n - 1 - i stand equally far from it on either side. */
  lemma RowIsCentred(n: int, width: real, height: real, i: int)
    requires 0 <= i < n
    ensures RowLayout(n, width, height)[i].baseX + RowLayout(n, width, height)[n - 1 - i].baseX == width
  {
    var row := RowLayout(n, width, height);
    assert row[i].baseX == StartX(n, width) + i as real * Spacing;
    assert row[n - 1 - i].baseX == StartX(n, width) + (n - 1 - i) as real * Spacing;
  }

  // ---------------------------------------------------------------------
  // Rendering

  /** A pixel position in the jaw area. */
  datatype Point = Point(x: real, y: real)

  /** Math.round: the nearest integer, halves rounded up. */
  function Round(v: real): (r: int)
    ensures r as real - 0.5 <= v < r as real + 0.5
  {
    (v + 0.5).Floor
  }

  /** Horizontal pixel offset of displacement x at gain k: a displacement
      within the limit is drawn at most 24|k| pixels away, plus half a pixel
      of rounding. */
  function OffsetX(k: real, x: real): (r: int)
    ensures -Limit <= x <= Limit ==> Abs(r as real) <= 24.0 * Abs(k) + 0.5
  {
    HorizontalOffsetBound(k, x);
    Round(k * x * PixelScale)
  }

  /** Vertical pixel offset of displacement y at gain k: half the horizontal
      scale, so at most 12|k| pixels plus half a pixel. */
  function OffsetY(k: real, y: real): (r: int)
    ensures -Limit <= y <= Limit ==> Abs(r as real) <= 12.0 * Abs(k) + 0.5
  {
    VerticalOffsetBound(k, y);
    Round(k * y * PixelScale / 2.0)
  }

  /** Where a tooth is drawn: its rest position shifted by the pixel offsets.
      A tooth within the displacement limit is drawn within 24|k| pixels of
      its rest x and 12|k| of its rest y, give or take half a pixel. */
  function RenderPosition(b: Body, k: real): (p: Point)
    ensures InLimit(b) ==> Abs(p.x - b.baseX) <= 24.0 * Abs(k) + 0.5
    ensures InLimit(b) ==> Abs(p.y - b.baseY) <= 12.0 * Abs(k) + 0.5
  {
    Point(b.baseX + OffsetX(k, b.x) as real, b.baseY + OffsetY(k, b.y) as real)
  }

  lemma ProductBound(k: real, x: real, bound: real)
    requires Abs(x) <= bound
    ensures Abs(k * x) <= Abs(k) * bound
  {
    ProductSign(Abs(k), bound - Abs(x));
    assert Abs(k) * (bound - Abs(x)) == Abs(k) * bound - Abs(k) * Abs(x);
    assert Abs(k * x) == Abs(k) * Abs(x);
  }

  /** Rounding moves a value by at most half a pixel. */
  lemma RoundedMagnitude(v: real, bound: real)
    requires Abs(v) <= bound
    ensures Abs(Round(v) as real) <= bound + 0.5
  {
  }

  /** A value at most `bound` in magnitude, scaled by c >= 0 and rounded. */
  lemma ScaledRoundBound(p: real, c: real, bound: real)
    requires Abs(p) <= bound && c >= 0.0
    ensures Abs(Round(p * c) as real) <= bound * c + 0.5
  {
    ProductBound(c, p, bound);
    assert Abs(c) * bound == bound * c;
    assert Abs(p * c) == Abs(c * p);
    RoundedMagnitude(p * c, bound * c);
  }

  lemma HorizontalOffsetBound(k: real, x: real)
    ensures -Limit <= x <= Limit ==> Abs(Round(k * x * PixelScale) as real) <= 24.0 * Abs(k) + 0.5
  {
    if -Limit <= x <= Limit {
      var p := k * x;
      ProductBound(k, x, Limit);
      ScaledRoundBound(p, PixelScale, Abs(k) * Limit);
    }
  }

  lemma VerticalOffsetBound(k: real, y: real)
    ensures -Limit <= y <= Limit ==> Abs(Round(k * y * PixelScale / 2.0) as real) <= 12.0 * Abs(k) + 0.5
  {
    if -Limit <= y <= Limit {
      var p := k * y;
      ProductBound(k, y, Limit);
      assert p * PixelScale / 2.0 == p * 600.0;
      ScaledRoundBound(p, 600.0, Abs(k) * Limit);
    }
  }

  /** A tooth with no displacement is drawn exactly at its rest position. */
  lemma RestingToothAtBase(b: Body, k: real)
    requires b.x == 0.0 && b.y == 0.0
    ensures RenderPosition(b, k) == Point(b.baseX, b.baseY)
  {
    assert k * 0.0 == 0.0;
  }
}
