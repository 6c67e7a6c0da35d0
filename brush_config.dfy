/** The static brush and stamp parameter table (constants.ts). */
module BrushConfig {
  import opened Types

  /** The parameters of one brush: its width range in logical pixels, how
      much the width grows per dwell tick, and how strongly speed thins it. */
  datatype BrushProfile = BrushProfile(minWidth: real, maxWidth: real, growthRate: real, velocityFactor: real)

  /** What the width physics relies on: a non-empty width range above zero
      and positive growth and speed sensitivity. */
  predicate WellFormed(p: BrushProfile)
  {
    0.0 < p.minWidth < p.maxWidth && 0.0 < p.growthRate && 0.0 < p.velocityFactor
  }

  /** `BRUSH_CONFIG[tool]` for the two brushes. */
  function Profile(t: Tool): (p: BrushProfile)
    requires t != Stamp
    ensures WellFormed(p)
  {
    if t == FutoFude then BrushProfile(8.0, 45.0, 1.5, 0.15)
    else BrushProfile(2.0, 12.0, 0.5, 0.08)
  }

  /** `BRUSH_CONFIG[STAMP].size`: the side of the square seal in logical pixels. */
  const StampSize: real := 60.0

  /** The thick brush's width range lies strictly above the thin brush's at both ends. */
  lemma ThickDominatesThin()
    ensures Profile(HosoFude).minWidth < Profile(FutoFude).minWidth
    ensures Profile(HosoFude).maxWidth < Profile(FutoFude).maxWidth
  {
  }

  /** The thin brush's range is a whole number of growth steps: 2 + 20 * 0.5 == 12. */
  lemma ThinRangeIsWholeSteps()
    ensures var p := Profile(HosoFude); p.minWidth + 20.0 * p.growthRate == p.maxWidth
  {
  }

  /** The thick brush's range is not: 8 + k * 1.5 is never 45. */
  lemma ThickRangeIsNotWholeSteps(k: nat)
    ensures var p := Profile(FutoFude); p.minWidth + (k as real) * p.growthRate != p.maxWidth
  {
    if k <= 24 {
      assert (k as real) * 1.5 <= 36.0;
    } else {
      assert (k as real) * 1.5 >= 37.5;
    }
  }
}
