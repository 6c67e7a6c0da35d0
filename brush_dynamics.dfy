/** The width physics of a brush stroke (components/Canvas.tsx): dwell growth
    while the pointer rests, and speed damping with smoothing while it moves. */
module BrushDynamics {
  import opened Types
  import opened JsMath
  import opened BrushConfig

  /** The band a stroke's widths live in: from the brush's minimum up to,
      but not including, one growth step past its maximum. */
  predicate InBand(p: BrushProfile, w: real)
  {
    p.minWidth <= w < p.maxWidth + p.growthRate
  }

  // ---------------------------------------------------------------------
  // Dwell growth: one tick of the growth timer.
  // ---------------------------------------------------------------------

  /** The width after one growth tick: `growthRate` is added whenever the
      width is still below `maxWidth`, with no clamp afterwards. */
  function GrowthStep(p: BrushProfile, w: real): (r: real)
    ensures 0.0 <= p.growthRate ==> w <= r
    ensures p.maxWidth <= w ==> r == w
  {
    if w < p.maxWidth then w + p.growthRate else w
  }

  /** A tick never narrows the brush, and it widens it exactly while the
      width is below the maximum. */
  lemma GrowthNeverShrinks(p: BrushProfile, w: real)
    requires WellFormed(p)
    ensures w <= GrowthStep(p, w)
    ensures w < GrowthStep(p, w) <==> w < p.maxWidth
  {
  }

  /** A width below `maxWidth + growthRate` stays below it after a tick:
      the overshoot is less than one growth step. */
  lemma GrowthStaysBelowOvershoot(p: BrushProfile, w: real)
    requires WellFormed(p)
    requires w < p.maxWidth + p.growthRate
    ensures GrowthStep(p, w) < p.maxWidth + p.growthRate
  {
  }

  /** The width after `k` growth ticks starting from `w`; holding still
      never narrows the brush. */
  function Grown(p: BrushProfile, w: real, k: nat): (r: real)
    ensures 0.0 <= p.growthRate ==> w <= r
  {
    if k == 0 then w else GrowthStep(p, Grown(p, w, k - 1))
  }

  /** Holding still never narrows the brush and never takes it a full
      growth step past its maximum. */
  lemma {:induction false} GrownBounds(p: BrushProfile, w: real, k: nat)
    requires WellFormed(p)
    requires w < p.maxWidth + p.growthRate
    ensures w <= Grown(p, w, k) < p.maxWidth + p.growthRate
  {
    if k > 0 {
      GrownBounds(p, w, k - 1);
      GrowthStaysBelowOvershoot(p, Grown(p, w, k - 1));
    }
  }

  /** Holding longer never gives a narrower brush. */
  lemma {:induction false} GrownMonotone(p: BrushProfile, w: real, j: nat, k: nat)
    requires WellFormed(p)
    requires j <= k
    ensures Grown(p, w, j) <= Grown(p, w, k)
  {
    if j < k {
      GrownMonotone(p, w, j, k - 1);
    }
  }

  /** The thin brush held for `k` ticks has width `min(12, 2 + k * 0.5)`:
      it lands on its maximum after 20 ticks and stays there. */
  lemma {:induction false} ThinBrushDwell(k: nat)
    ensures var p := Profile(HosoFude);
      Grown(p, p.minWidth, k) == Min(p.maxWidth, p.minWidth + (k as real) * p.growthRate)
  {
    if k > 0 {
      ThinBrushDwell(k - 1);
    }
  }

  /** The thick brush held for `k` ticks has width `8 + k * 1.5` up to 25
      ticks and then stays at 45.5, half a pixel above its maximum of 45. */
  lemma {:induction false} ThickBrushDwell(k: nat)
    ensures var p := Profile(FutoFude);
      Grown(p, p.minWidth, k) == if k <= 25 then p.minWidth + (k as real) * p.growthRate else 45.5
  {
    if k > 0 {
      ThickBrushDwell(k - 1);
    }
  }

  /** Hence the thick brush's dwell growth ends above its maximum width. */
  lemma ThickBrushOvershoots(k: nat)
    requires 25 <= k
    ensures var p := Profile(FutoFude); p.maxWidth < Grown(p, p.minWidth, k) == 45.5
  {
    ThickBrushDwell(k);
  }

  // ---------------------------------------------------------------------
  // Movement: speed damping and smoothing.
  // ---------------------------------------------------------------------

  /** `dist / (timeDiff || 1)`: pixels per millisecond, where only a zero
      gap (not a negative one) is replaced by one millisecond. */
  function Velocity(dist: real, timeDiff: real): (v: real)
    ensures 0.0 <= dist && 0.0 <= timeDiff ==> 0.0 <= v
    ensures timeDiff == 0.0 ==> v == dist
  {
    dist / (if timeDiff == 0.0 then 1.0 else timeDiff)
  }

  /** The width the brush is pulled towards: the current width thinned in
      proportion to speed, clamped to the brush's range. */
  function TargetWidth(p: BrushProfile, w: real, velocity: real): (r: real)
    ensures p.minWidth <= p.maxWidth ==> p.minWidth <= r <= p.maxWidth
  {
    Max(p.minWidth, Min(p.maxWidth, w - velocity * p.velocityFactor * 20.0))
  }

  /** The new current width: 70% of the old width and 30% of the target,
      so it lies between the two. */
  function SmoothedWidth(p: BrushProfile, w: real, velocity: real): (r: real)
    ensures Min(w, TargetWidth(p, w, velocity)) <= r <= Max(w, TargetWidth(p, w, velocity))
  {
    w * 0.7 + TargetWidth(p, w, velocity) * 0.3
  }

  /** The width after an accepted move of `dist` pixels `timeDiff`
      milliseconds after the previous sample. A width in the brush's band
      stays in it, whatever the speed and whichever way time runs. */
  function MoveWidth(p: BrushProfile, w: real, dist: real, timeDiff: real): (r: real)
    ensures WellFormed(p) && InBand(p, w) ==> InBand(p, r)
  {
    SmoothedWidth(p, w, Velocity(dist, timeDiff))
  }

  /** Division by a positive number keeps order. */
  lemma DivisionMonotone(a: real, b: real, t: real)
    requires a <= b && 0.0 < t
    ensures a / t <= b / t
  {
    calc {
      b / t - a / t;
      (b - a) / t;
    >= { DivisionOfNonNegative(b - a, t); }
      0.0;
    }
  }

  lemma DivisionOfNonNegative(a: real, t: real)
    requires 0.0 <= a && 0.0 < t
    ensures 0.0 <= a / t
  {
  }

  /** Over the same time gap, a longer move is a faster one. */
  lemma VelocityMonotoneInDistance(d1: real, d2: real, timeDiff: real)
    requires d1 <= d2 && 0.0 <= timeDiff
    ensures Velocity(d1, timeDiff) <= Velocity(d2, timeDiff)
  {
    DivisionMonotone(d1, d2, if timeDiff == 0.0 then 1.0 else timeDiff);
  }

  /** The faster the move, the lower (or equal) the target width. */
  lemma TargetAntitoneInVelocity(p: BrushProfile, w: real, v1: real, v2: real)
    requires 0.0 <= p.velocityFactor
    requires v1 <= v2
    ensures TargetWidth(p, w, v2) <= TargetWidth(p, w, v1)
  {
    var k := p.velocityFactor * 20.0;
    assert 0.0 <= k;
    assert v2 * k - v1 * k == (v2 - v1) * k;
    assert 0.0 <= (v2 - v1) * k;
    assert v1 * p.velocityFactor * 20.0 == v1 * k && v2 * p.velocityFactor * 20.0 == v2 * k;
  }

  /** The faster the move, the thinner (or equal) the new width. */
  lemma SmoothedAntitoneInVelocity(p: BrushProfile, w: real, v1: real, v2: real)
    requires 0.0 <= p.velocityFactor
    requires v1 <= v2
    ensures SmoothedWidth(p, w, v2) <= SmoothedWidth(p, w, v1)
  {
    TargetAntitoneInVelocity(p, w, v1, v2);
  }

  /** Two moves from the same width over the same time gap: the longer,
      faster one leaves the brush no wider than the shorter one. */
  lemma FasterMoveIsThinner(p: BrushProfile, w: real, d1: real, d2: real, timeDiff: real)
    requires WellFormed(p)
    requires d1 <= d2 && 0.0 <= timeDiff
    ensures MoveWidth(p, w, d2, timeDiff) <= MoveWidth(p, w, d1, timeDiff)
  {
    VelocityMonotoneInDistance(d1, d2, timeDiff);
    SmoothedAntitoneInVelocity(p, w, Velocity(d1, timeDiff), Velocity(d2, timeDiff));
  }

  /** Moving never thickens the stroke: from any width at or above the
      minimum, a move (forwards in time) lands between the minimum and
      the old width. This holds even above `maxWidth`, after a dwell
      overshoot. */
  lemma MoveNeverThickens(p: BrushProfile, w: real, dist: real, timeDiff: real)
    requires WellFormed(p)
    requires p.minWidth <= w
    requires 0.0 <= dist && 0.0 <= timeDiff
    ensures p.minWidth <= MoveWidth(p, w, dist, timeDiff) <= w
  {
    var v := Velocity(dist, timeDiff);
    TargetAntitoneInVelocity(p, w, 0.0, v);
    assert TargetWidth(p, w, 0.0) <= w;
  }

  /** A width inside the brush's range stays inside it after any move,
      whatever the speed. */
  lemma MoveStaysInRange(p: BrushProfile, w: real, velocity: real)
    requires WellFormed(p)
    requires p.minWidth <= w <= p.maxWidth
    ensures p.minWidth <= SmoothedWidth(p, w, velocity) <= p.maxWidth
  {
  }

  /** A zero time gap counts as one millisecond. */
  lemma ZeroGapCountsAsOne(p: BrushProfile, w: real, dist: real)
    ensures MoveWidth(p, w, dist, 0.0) == MoveWidth(p, w, dist, 1.0)
  {
  }
}
