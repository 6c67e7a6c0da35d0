/** The geometry helpers of the brush engine (utils/drawingUtils.ts). */
module Geometry {
  import opened Types
  import opened JsMath

  /** `midPointBtw`: the sample halfway between two samples, field by field. */
  function MidPointBtw(p1: Point, p2: Point): (m: Point)
    ensures m.x == (p1.x + p2.x) / 2.0
    ensures m.y == (p1.y + p2.y) / 2.0
    ensures m.width == (p1.width + p2.width) / 2.0
    ensures m.time == (p1.time + p2.time) / 2.0
  {
    Point(p1.x + (p2.x - p1.x) / 2.0,
          p1.y + (p2.y - p1.y) / 2.0,
          p1.width + (p2.width - p1.width) / 2.0,
          p1.time + (p2.time - p1.time) / 2.0)
  }

  /** The midpoint does not depend on the order of its arguments. */
  lemma MidPointSymmetric(p1: Point, p2: Point)
    ensures MidPointBtw(p1, p2) == MidPointBtw(p2, p1)
  {
  }

  /** The midpoint of a sample with itself is that sample. */
  lemma MidPointOfSelf(p: Point)
    ensures MidPointBtw(p, p) == p
  {
  }

  /** Every field of the midpoint lies between the two inputs' values. */
  lemma MidPointBetween(p1: Point, p2: Point)
    ensures var m := MidPointBtw(p1, p2);
      Min(p1.x, p2.x) <= m.x <= Max(p1.x, p2.x) &&
      Min(p1.y, p2.y) <= m.y <= Max(p1.y, p2.y) &&
      Min(p1.width, p2.width) <= m.width <= Max(p1.width, p2.width) &&
      Min(p1.time, p2.time) <= m.time <= Max(p1.time, p2.time)
  {
  }

  /** Hence a midpoint's width keeps any bounds both inputs' widths keep. */
  lemma MidPointWidthWithin(p1: Point, p2: Point, lo: real, hi: real)
    requires lo <= p1.width <= hi && lo <= p2.width <= hi
    ensures lo <= MidPointBtw(p1, p2).width <= hi
  {
    MidPointBetween(p1, p2);
  }

  /** The square of the Euclidean distance between two samples' positions,
      `Math.pow(dx, 2) + Math.pow(dy, 2)`: what `distanceBetween` takes the
      square root of. */
  function SquaredDistance(p1: Point, p2: Point): (s: real)
    ensures 0.0 <= s
  {
    SquareSign(p2.x - p1.x);
    SquareSign(p2.y - p1.y);
    Square(p2.x - p1.x) + Square(p2.y - p1.y)
  }

  /** `distanceBetween(p1, p2) == d`: `d` is the non-negative square root of
      the squared distance. The square root itself is not modelled; callers
      receive `d` together with this fact. Neither coordinate gap exceeds
      the distance. */
  predicate IsDistanceBetween(d: real, p1: Point, p2: Point)
    ensures IsDistanceBetween(d, p1, p2) ==>
      -d <= p2.x - p1.x <= d && -d <= p2.y - p1.y <= d
  {
    if 0.0 <= d && Square(d) == SquaredDistance(p1, p2) then
      SquareSign(p2.x - p1.x);
      SquareSign(p2.y - p1.y);
      SquareBounded(p2.x - p1.x, d);
      SquareBounded(p2.y - p1.y, d);
      true
    else
      false
  }

  /** There is at most one distance between two samples. */
  lemma DistanceUnique(d1: real, d2: real, p1: Point, p2: Point)
    requires IsDistanceBetween(d1, p1, p2) && IsDistanceBetween(d2, p1, p2)
    ensures d1 == d2
  {
    SquareInjective(d1, d2);
  }

  /** The distance is symmetric. */
  lemma DistanceSymmetric(d: real, p1: Point, p2: Point)
    ensures IsDistanceBetween(d, p1, p2) <==> IsDistanceBetween(d, p2, p1)
  {
    assert Square(p2.x - p1.x) == Square(p1.x - p2.x);
    assert Square(p2.y - p1.y) == Square(p1.y - p2.y);
  }

  /** The distance is zero exactly when the two positions coincide. */
  lemma DistanceZeroIff(d: real, p1: Point, p2: Point)
    requires IsDistanceBetween(d, p1, p2)
    ensures d == 0.0 <==> (p1.x == p2.x && p1.y == p2.y)
  {
    var dx, dy := p2.x - p1.x, p2.y - p1.y;
    SquareSign(d);
    SquareSign(dx);
    SquareSign(dy);
    if d == 0.0 {
      assert Square(dx) + Square(dy) == 0.0;
      assert dx == 0.0 && dy == 0.0;
    } else {
      assert 0.0 < Square(dx) + Square(dy);
      assert dx != 0.0 || dy != 0.0;
    }
  }

  /** The distance reads the positions only, never the widths or times. */
  lemma DistanceIgnoresWidthAndTime(d: real, p1: Point, p2: Point, w1: real, t1: real, w2: real, t2: real)
    ensures IsDistanceBetween(d, p1, p2) <==>
            IsDistanceBetween(d, p1.(width := w1, time := t1), p2.(width := w2, time := t2))
  {
  }

  /** The engine's noise test `dist < 2` is the test that the squared
      distance is below 4, so it can be decided without a square root. */
  lemma NoiseThreshold(d: real, p1: Point, p2: Point)
    requires IsDistanceBetween(d, p1, p2)
    ensures d < 2.0 <==> SquaredDistance(p1, p2) < 4.0
  {
    if d < 2.0 {
      SquareStrictlyMonotone(d, 2.0);
    } else if d > 2.0 {
      SquareStrictlyMonotone(2.0, d);
    }
  }

  /** `isOutOfBounds`: a position is inside exactly when both coordinates
      lie within the closed ranges `[0, width]` and `[0, height]`. */
  function IsOutOfBounds(x: real, y: real, width: real, height: real): (out: bool)
    ensures !out <==> (0.0 <= x <= width && 0.0 <= y <= height)
  {
    x < 0.0 || x > width || y < 0.0 || y > height
  }

  /** The four corners of a surface, its edges included, count as inside. */
  lemma CornersAreInside(width: real, height: real)
    requires 0.0 <= width && 0.0 <= height
    ensures !IsOutOfBounds(0.0, 0.0, width, height)
    ensures !IsOutOfBounds(width, 0.0, width, height)
    ensures !IsOutOfBounds(0.0, height, width, height)
    ensures !IsOutOfBounds(width, height, width, height)
  {
  }
}
