/** The few pieces of JavaScript's `Math` the engine uses, over exact reals. */
module JsMath {

  /** `Math.min(a, b)` */
  function Min(a: real, b: real): (r: real)
    ensures r <= a && r <= b
    ensures r == a || r == b
  {
    if a <= b then a else b
  }

  /** `Math.max(a, b)` */
  function Max(a: real, b: real): (r: real)
    ensures a <= r && b <= r
    ensures r == a || r == b
  {
    if a <= b then b else a
  }

  /** `Math.pow(a, 2)` */
  function Square(a: real): (s: real)
  {
    a * a
  }

  /** The product of two positive reals is positive. */
  lemma ProductOfPositives(a: real, b: real)
    requires 0.0 < a && 0.0 < b
    ensures 0.0 < a * b
  {
  }

  /** A square is zero for zero and positive otherwise. */
  lemma SquareSign(a: real)
    ensures 0.0 <= Square(a)
    ensures a != 0.0 ==> 0.0 < Square(a)
    ensures a == 0.0 ==> Square(a) == 0.0
  {
    if a < 0.0 {
      calc {
        Square(a);
        (-a) * (-a);
      > { ProductOfPositives(-a, -a); }
        0.0;
      }
    } else if a > 0.0 {
      calc {
        Square(a);
        a * a;
      > { ProductOfPositives(a, a); }
        0.0;
      }
    } else {
      calc {
        Square(a);
        0.0 * 0.0;
        0.0;
      }
    }
  }

  /** Squaring is strictly increasing on the non-negative reals. */
  lemma SquareStrictlyMonotone(a: real, b: real)
    requires 0.0 <= a < b
    ensures Square(a) < Square(b)
  {
    calc {
      Square(a);
      a * a;
    <= { assert 0.0 <= a * (b - a); }
      a * b;
    < { assert 0.0 < b * (b - a); }
      b * b;
      Square(b);
    }
  }

  /** A non-negative real is determined by its square. */
  lemma SquareInjective(a: real, b: real)
    requires 0.0 <= a && 0.0 <= b
    requires Square(a) == Square(b)
    ensures a == b
  {
    if a < b {
      SquareStrictlyMonotone(a, b);
    } else if b < a {
      SquareStrictlyMonotone(b, a);
    }
  }

  /** A real whose square is at most the square of a non-negative `d`
      lies within `d` of zero. */
  lemma SquareBounded(a: real, d: real)
    requires 0.0 <= d
    requires Square(a) <= Square(d)
    ensures -d <= a <= d
  {
    if d < a {
      SquareStrictlyMonotone(d, a);
    } else if a < -d {
      assert Square(-a) == Square(a);
      SquareStrictlyMonotone(d, -a);
    }
  }
}
