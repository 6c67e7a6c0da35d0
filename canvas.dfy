/** The brush-stroke engine of the drawing surface (components/Canvas.tsx):
    the stroke state machine driven by press, move, release, growth-timer
    ticks and clear, and the paint operations it issues. */
module Canvas {
  import opened Types
  import opened Geometry
  import opened BrushConfig
  import opened BrushDynamics
  import opened PaintLog
  import opened StampLayout

  /** The paint operations for the newest segment of a stroke whose history
      holds at least three samples `p0, p1, p2` (the last three): a quadratic
      curve from the midpoint of `p0, p1` through control point `p1` to the
      midpoint of `p1, p2`, stroked at `p1`'s width, then a disc at the
      joint `p1` whose diameter is that same width. */
  function SegmentOps(points: seq<Point>): (ops: seq<PaintOp>)
    requires |points| >= 3
    ensures |ops| == 2 && ops[0].Curve? && ops[1].Circle?
    ensures ops[1].center == ops[0].ctrl && ops[1].radius * 2.0 == ops[0].lineWidth
    ensures CurveCount(ops) == 1
  {
    var n := |points|;
    var p0, p1, p2 := points[n - 3], points[n - 2], points[n - 1];
    var mid0 := MidPointBtw(p0, p1);
    var mid := MidPointBtw(p1, p2);
    var ops := [Curve(Pos(mid0.x, mid0.y), Pos(p1.x, p1.y), Pos(mid.x, mid.y), p1.width),
                Circle(Pos(p1.x, p1.y), p1.width / 2.0)];
    assert ops[1..][1..] == [];
    assert CurveCount(ops[1..]) == 0;
    ops
  }

  /** Midpoint chaining gives a continuous mark: each new curve starts
      exactly where the previous segment's curve ended. */
  lemma SegmentsChain(points: seq<Point>)
    requires |points| >= 4
    ensures SegmentOps(points[..|points| - 1])[0].to == SegmentOps(points)[0].from
  {
    var n := |points|;
    assert points[..n - 1][n - 3] == points[n - 3];
    assert points[..n - 1][n - 2] == points[n - 2];
  }

  /** A segment's curve runs through the newest gap but one: its start lies
      between `p0` and `p1`, its end between `p1` and `p2`, and its width is
      a sample width, so it keeps any width bounds the samples keep. */
  lemma SegmentWithinSamples(points: seq<Point>, lo: real, hi: real)
    requires |points| >= 3
    requires forall i :: 0 <= i < |points| ==> lo <= points[i].width <= hi
    ensures var c := SegmentOps(points)[0]; var n := |points|;
      lo <= c.lineWidth <= hi &&
      JsMath.Min(points[n - 3].x, points[n - 2].x) <= c.from.x <= JsMath.Max(points[n - 3].x, points[n - 2].x) &&
      JsMath.Min(points[n - 2].x, points[n - 1].x) <= c.to.x <= JsMath.Max(points[n - 2].x, points[n - 1].x) &&
      JsMath.Min(points[n - 3].y, points[n - 2].y) <= c.from.y <= JsMath.Max(points[n - 3].y, points[n - 2].y) &&
      JsMath.Min(points[n - 2].y, points[n - 1].y) <= c.to.y <= JsMath.Max(points[n - 2].y, points[n - 1].y)
  {
    var n := |points|;
    assert lo <= points[n - 2].width <= hi;
    MidPointBetween(points[n - 3], points[n - 2]);
    MidPointBetween(points[n - 2], points[n - 1]);
  }

  /** The `Canvas` component's drawing state. The props `tool` and
      `stampText` are fields that the caller sets. */
  class Canvas {
    /** The selected tool (prop). */
    var tool: Tool
    /** The seal text (prop), in UTF-16 code units. */
    var stampText: seq<CodeUnit>
    /** `isDrawing` */
    var drawing: bool
    /** Whether `growthTimerRef` holds a live interval. */
    var timerActive: bool
    /** The brush the live interval was created for (its closure's `config`). */
    var timerTool: Tool
    /** The press point the live interval repaints at (its closure's `x, y`). */
    var growthAt: Pos
    /** `currentWidthRef` */
    var width: real
    /** `pointsRef`: the current stroke's sample history. */
    var points: seq<Point>
    /** Everything painted on the surface, in order. */
    var log: seq<PaintOp>
    /** Where in `log` the current stroke began. */
    ghost var strokeStart: nat
    /** The brush the current stroke was started with. */
    ghost var strokeTool: Tool
    /** Whether a stroke has been started and the tool has stayed the same
        since its press. */
    ghost var oneBrush: bool

    /** The invariants the handlers keep:
        - the growth timer only runs during a stroke, before its first
          accepted move, so the history then holds at most one sample;
        - while it runs, the width lies between the brush's minimum and
          less than one growth step beyond its maximum, and the one sample
          sits at the press point with the current width;
        - a stroke of `n >= 2` samples has painted exactly `n - 2` curves;
        - in a stroke drawn throughout with one brush, the current width and
          every sample width lie in that brush's band, from its minimum to
          less than one growth step past its maximum. */
    ghost predicate Valid()
      reads this
    {
      TimerValid() && HistoryValid() && BrushValid()
    }

    /** The growth timer's part of `Valid`. */
    ghost predicate TimerValid()
      reads this`timerTool, this`timerActive, this`drawing, this`points, this`width, this`growthAt
    {
      timerTool != Stamp &&
      (timerActive ==> drawing && |points| <= 1 && InBand(Profile(timerTool), width)) &&
      (timerActive && |points| == 1 ==>
        points[0].width == width && Pos(points[0].x, points[0].y) == growthAt)
    }

    /** The painted history's part of `Valid`. */
    ghost predicate HistoryValid()
      reads this`strokeStart, this`log, this`points
    {
      strokeStart <= |log| &&
      (points != [] ==> CurveCount(log[strokeStart..]) == if |points| >= 2 then |points| - 2 else 0)
    }

    /** The single-brush part of `Valid`. */
    ghost predicate BrushValid()
      reads this`oneBrush, this`tool, this`strokeTool, this`timerTool, this`width, this`points
    {
      oneBrush ==>
        tool == strokeTool && timerTool == strokeTool && strokeTool != Stamp &&
        WidthsInBand(Profile(strokeTool), width, points)
    }

    /** A move is handled only while drawing with a brush. */
    predicate Brushing()
      reads this
    {
      drawing && tool != Stamp
    }

    /** The newest sample of the history. */
    function Last(): (p: Point)
      reads this
      requires points != []
    {
      points[|points| - 1]
    }

    /** A freshly mounted surface: idle, no history, width 0, and the
        background painted once by the clear effect's first run. */
    constructor (tool: Tool, stampText: seq<CodeUnit>)
      ensures Valid()
      ensures this.tool == tool && this.stampText == stampText
      ensures !drawing && !timerActive && width == 0.0 && points == [] && log == [Background]
      ensures !oneBrush
    {
      this.tool := tool;
      this.stampText := stampText;
      drawing := false;
      timerActive := false;
      timerTool := FutoFude;
      growthAt := Pos(0.0, 0.0);
      width := 0.0;
      points := [];
      log := [Background];
      strokeStart := 0;
      strokeTool := FutoFude;
      oneBrush := false;
    }

    /** The caller selects a tool. Selecting a different one means the
        current stroke is no longer drawn with a single brush. */
    method SelectTool(t: Tool)
      requires Valid()
      modifies this`tool, this`oneBrush
      ensures Valid() && tool == t
      ensures oneBrush == (old(oneBrush) && t == old(tool))
    {
      oneBrush := oneBrush && t == tool;
      tool := t;
    }

    /** The caller changes the seal text. */
    method SetStampText(text: seq<CodeUnit>)
      requires Valid()
      modifies this`stampText
      ensures Valid() && stampText == text
    {
      stampText := text;
    }

    /** `drawStamp`: the seal box at the press point, its glyphs, then a
        snapshot. The canvas calls are collected in order and then added to
        the log. Drawing flag, width, timer and history are not touched. */
    method DrawStamp(x: real, y: real)
      requires Valid()
      modifies this`log
      ensures Valid()
      ensures log == old(log) + StampOps(x, y, stampText) + [Snapshot]
    {
      var size := StampSize;
      var box := [SealBox(Pos(x, y), size)];
      var glyphs: seq<PaintOp>;
      var fontSize := if |stampText| > 2 then size / 2.2 else size / 1.6;
      assert fontSize == StampFontSize(|stampText|, size);
      if |stampText| == 4 {
        glyphs := [Glyph([stampText[0]], -size / 4.0, -size / 4.0, fontSize)];
        glyphs := glyphs + [Glyph([stampText[1]], size / 4.0, -size / 4.0, fontSize)];
        glyphs := glyphs + [Glyph([stampText[2]], -size / 4.0, size / 4.0, fontSize)];
        glyphs := glyphs + [Glyph([stampText[3]], size / 4.0, size / 4.0, fontSize)];
      } else if |stampText| == 2 {
        glyphs := [Glyph([stampText[0]], 0.0, -size / 4.0, fontSize)];
        glyphs := glyphs + [Glyph([stampText[1]], 0.0, size / 4.0, fontSize)];
      } else {
        glyphs := [Glyph(stampText[..if |stampText| < 3 then |stampText| else 3], 0.0, 0.0, fontSize)];
      }
      assert glyphs == StampGlyphs(stampText, size);
      StampOpsLayout(x, y, stampText);
      log := log + box + glyphs + [Snapshot];
      StampPaintsNoCurve(old(log), x, y, stampText, log);
    }

    /** `startStroke` at surface-relative `(x, y)` at time `now`. With the
        stamp tool it only stamps. With a brush it starts a stroke: the
        width drops to the brush minimum, the history becomes that single
        sample, a dot of the minimum width is painted, and the growth timer
        is (re)started for this press point and brush. */
    method StartStroke(x: real, y: real, now: real)
      requires Valid()
      modifies this`drawing, this`timerActive, this`timerTool, this`growthAt, this`width, this`points, this`log
      modifies this`strokeStart, this`strokeTool, this`oneBrush
      ensures Valid()
      ensures tool == Stamp ==>
        drawing == old(drawing) && timerActive == old(timerActive) && timerTool == old(timerTool) &&
        growthAt == old(growthAt) && width == old(width) && points == old(points) &&
        log == old(log) + StampOps(x, y, stampText) + [Snapshot] &&
        strokeStart == old(strokeStart)
      ensures tool != Stamp ==>
        var p := Profile(tool);
        drawing && timerActive && timerTool == tool && growthAt == Pos(x, y) &&
        width == p.minWidth && points == [Point(x, y, p.minWidth, now)] &&
        log == old(log) + [Circle(Pos(x, y), p.minWidth / 2.0)] &&
        strokeStart == old(|log|) && oneBrush && strokeTool == tool
    {
      if tool == Stamp {
        DrawStamp(x, y);
        return;
      }
      drawing := true;
      var config := Profile(tool);
      width := config.minWidth;
      points := [Point(x, y, config.minWidth, now)];
      strokeStart := |log|;
      log := log + [Circle(Pos(x, y), config.minWidth / 2.0)];
      assert log[strokeStart..] == [Circle(Pos(x, y), config.minWidth / 2.0)];
      timerActive, timerTool, growthAt := true, tool, Pos(x, y);
      strokeTool, oneBrush := tool, true;
    }

    /** One firing of the growth interval. While the timer is live and the
        width is below the brush maximum, the width grows by one growth
        step (with no clamp), a disc of the new width is painted at the
        original press point, and the newest sample, if any, takes the new
        width. Otherwise nothing changes. */
    method GrowthTick()
      requires Valid()
      modifies this`width, this`points, this`log
      ensures Valid()
      ensures width == if old(timerActive) then GrowthStep(Profile(timerTool), old(width)) else old(width)
      ensures old(width) <= width
      ensures old(timerActive) && old(width) < Profile(timerTool).maxWidth ==>
        log == old(log) + [Circle(growthAt, width / 2.0)] &&
        points == if old(points) == [] then [] else old(points)[..|old(points)| - 1] + [old(Last()).(width := width)]
      ensures !(old(timerActive) && old(width) < Profile(timerTool).maxWidth) ==>
        log == old(log) && points == old(points)
    {
      if timerActive {
        var config := Profile(timerTool);
        if width < config.maxWidth {
          width := width + config.growthRate;
          log := log + [Circle(growthAt, width / 2.0)];
          if |points| > 0 {
            var lastPoint := points[|points| - 1];
            points := points[..|points| - 1] + [lastPoint.(width := width)];
          }
          CircleAddsNoCurve(old(log), strokeStart, growthAt, width / 2.0);
          if oneBrush {
            GrowthStaysBelowOvershoot(config, old(width));
            GrowthKeepsBand(config, old(width), width, old(points));
          }
        }
      }
    }

    /** `moveStroke` to surface-relative `(x, y)` at time `now`, where `dist`
        is the distance from the newest sample. Ignored unless drawing with
        a brush. Otherwise the growth timer is cancelled first; a move of
        less than 2 pixels then changes nothing else. An accepted move sets
        the new smoothed width, appends one sample and, once the history
        holds three or more samples, paints the newest segment. */
    method MoveStroke(x: real, y: real, now: real, dist: real)
      requires Valid()
      requires Brushing() ==> points != [] && IsDistanceBetween(dist, Last(), Point(x, y, 0.0, 0.0))
      modifies this`timerActive, this`width, this`points, this`log
      ensures Valid()
      ensures !Brushing() ==>
        timerActive == old(timerActive) && width == old(width) && points == old(points) && log == old(log)
      ensures Brushing() ==> !timerActive
      ensures Brushing() && dist < 2.0 ==>
        width == old(width) && points == old(points) && log == old(log)
      ensures Brushing() && SquaredDistance(old(Last()), Point(x, y, 0.0, 0.0)) < 4.0 ==>
        width == old(width) && points == old(points) && log == old(log)
      ensures Brushing() && 2.0 <= dist ==>
        width == MoveWidth(Profile(tool), old(width), dist, now - old(Last()).time) &&
        points == old(points) + [Point(x, y, width, now)] &&
        log == old(log) + (if |points| >= 3 then SegmentOps(points) else [])
      ensures Brushing() && 2.0 <= dist && Profile(tool).minWidth <= old(width) && old(Last()).time <= now ==>
        Profile(tool).minWidth <= width <= old(width)
      ensures oneBrush && log != old(log) ==>
        |points| >= 3 && InBand(Profile(strokeTool), SegmentOps(points)[0].lineWidth)
    {
      if !drawing || tool == Stamp {
        return;
      }
      // Cancel the growth timer as soon as the pointer moves.
      timerActive := false;

      var lastPoint := points[|points| - 1];
      var timeDiff := now - lastPoint.time;
      NoiseThreshold(dist, lastPoint, Point(x, y, 0.0, 0.0));
      if dist < 2.0 {
        return;
      }

      var velocity := Velocity(dist, timeDiff);
      var config := Profile(tool);
      var newWidth := TargetWidth(config, width, velocity);
      if config.minWidth <= width && 0.0 <= timeDiff {
        MoveNeverThickens(config, width, dist, timeDiff);
      }
      width := width * 0.7 + newWidth * 0.3;

      if oneBrush {
        SampleKeepsBand(config, old(width), points, Point(x, y, width, now));
      }
      points := points + [Point(x, y, width, now)];

      if |points| > 2 {
        assert oneBrush ==> InBand(Profile(strokeTool), points[|points| - 2].width);
        PaintSegment();
      }
    }

    /** The curve block of `moveStroke`: with three or more samples, strokes
        the newest segment and the disc at its joint. It adds exactly one
        curve to the current stroke. */
    method PaintSegment()
      requires |points| >= 3 && strokeStart <= |log|
      modifies this`log
      ensures log == old(log) + SegmentOps(points)
      ensures CurveCount(log[strokeStart..]) == CurveCount(old(log)[strokeStart..]) + 1
    {
      var n := |points|;
      var p1, p2 := points[n - 2], points[n - 1];
      var mid := MidPointBtw(p1, p2);
      var p0 := points[n - 3];
      var mid0 := MidPointBtw(p0, p1);
      var segment := [Curve(Pos(mid0.x, mid0.y), Pos(p1.x, p1.y), Pos(mid.x, mid.y), p1.width),
                      Circle(Pos(p1.x, p1.y), p1.width / 2.0)];
      assert segment == SegmentOps(points);
      SegmentAddsOneCurve(log, strokeStart, points);
      log := log + segment;
    }

    /** `endStroke`: ignored when not drawing; otherwise the stroke ends,
        the growth timer is cancelled and one snapshot is exported. */
    method EndStroke()
      requires Valid()
      modifies this`drawing, this`timerActive, this`log
      ensures Valid()
      ensures !old(drawing) ==> drawing == old(drawing) && timerActive == old(timerActive) && log == old(log)
      ensures old(drawing) ==> !drawing && !timerActive && log == old(log) + [Snapshot]
    {
      if !drawing {
        return;
      }
      drawing := false;
      timerActive := false;
      log := log + [Snapshot];
      CountAfterAppend(old(log), strokeStart, [Snapshot]);
    }

    /** The clear effect: the background is repainted and the history is
      emptied; the drawing flag, the timer and the width are left as they are. */
    method Clear()
      requires Valid()
      modifies this`points, this`log
      ensures Valid()
      ensures points == [] && log == old(log) + [Background]
    {
      log := log + [Background];
      points := [];
    }
  }

  /** The current width and every sample width of a stroke lie in the band
      of brush `p`. */
  ghost predicate WidthsInBand(p: BrushProfile, width: real, points: seq<Point>)
  {
    InBand(p, width) && forall i :: 0 <= i < |points| ==> InBand(p, points[i].width)
  }

  /** An accepted move whose new width is in the band keeps the stroke in
      the band, the new sample included. */
  lemma SampleKeepsBand(p: BrushProfile, width: real, points: seq<Point>, sample: Point)
    requires WidthsInBand(p, width, points)
    requires InBand(p, sample.width)
    ensures WidthsInBand(p, sample.width, points + [sample])
  {
    assert forall i :: 0 <= i < |points| ==> (points + [sample])[i] == points[i];
  }

  /** A growth tick whose new width is in the band keeps the stroke in the
      band, the resized newest sample included. */
  lemma GrowthKeepsBand(p: BrushProfile, width: real, grown: real, points: seq<Point>)
    requires WidthsInBand(p, width, points)
    requires InBand(p, grown)
    ensures WidthsInBand(p, grown,
      if points == [] then [] else points[..|points| - 1] + [points[|points| - 1].(width := grown)])
  {
    if points != [] {
      var n := |points|;
      var q := points[..n - 1] + [points[n - 1].(width := grown)];
      assert forall i :: 0 <= i < n - 1 ==> q[i] == points[i];
    }
  }

  /** Appending operations to the log adds their curves to the count of the
      current stroke. */
  lemma CountAfterAppend(log: seq<PaintOp>, start: nat, ops: seq<PaintOp>)
    requires start <= |log|
    ensures CurveCount((log + ops)[start..]) == CurveCount(log[start..]) + CurveCount(ops)
  {
    assert (log + ops)[start..] == log[start..] + ops;
    CurveCountAppend(log[start..], ops);
  }

  lemma CircleAddsNoCurve(log: seq<PaintOp>, start: nat, c: Pos, r: real)
    requires start <= |log|
    ensures CurveCount((log + [Circle(c, r)])[start..]) == CurveCount(log[start..])
  {
    CountAfterAppend(log, start, [Circle(c, r)]);
  }

  lemma SegmentAddsOneCurve(log: seq<PaintOp>, start: nat, points: seq<Point>)
    requires start <= |log| && |points| >= 3
    ensures CurveCount((log + SegmentOps(points))[start..]) == CurveCount(log[start..]) + 1
  {
    CountAfterAppend(log, start, SegmentOps(points));
  }

  /** A stamp paints no curve, so it leaves the stroke's curve count alone. */
  lemma StampPaintsNoCurve(before: seq<PaintOp>, x: real, y: real, text: seq<CodeUnit>, after: seq<PaintOp>)
    requires after == before + StampOps(x, y, text) + [Snapshot]
    ensures forall start: nat :: start <= |before| ==> CurveCount(after[start..]) == CurveCount(before[start..])
  {
    var ops := StampOps(x, y, text) + [Snapshot];
    CurveCountAppend(StampOps(x, y, text), [Snapshot]);
    assert CurveCount([Snapshot]) == 0;
    assert after == before + ops;
    forall start: nat | start <= |before|
      ensures CurveCount(after[start..]) == CurveCount(before[start..])
    {
      CountAfterAppend(before, start, ops);
    }
  }
}
