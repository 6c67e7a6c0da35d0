/** What the engine paints on the surface, recorded as a log of canvas
    operations instead of pixels (components/Canvas.tsx). */
module PaintLog {
  import opened Types

  /** A position in surface-relative logical pixels. */
  datatype Pos = Pos(x: real, y: real)

  /** One canvas operation:
      - `Background`: the whole surface refilled with the paper colour;
      - `Circle`: a filled disc (`arc` + `fill`);
      - `Curve`: a stroked quadratic curve (`moveTo` + `quadraticCurveTo` + `stroke`);
      - `SealBox`: the stamp's filled rounded square of side `size` centred at `center`;
      - `Glyph`: a `fillText` call, offset from the stamp centre;
      - `Snapshot`: a still-image export handed to the preview callback. */
  datatype PaintOp =
    | Background
    | Circle(center: Pos, radius: real)
    | Curve(from: Pos, ctrl: Pos, to: Pos, lineWidth: real)
    | SealBox(center: Pos, size: real)
    | Glyph(text: seq<CodeUnit>, dx: real, dy: real, fontSize: real)
    | Snapshot

  /** The number of curve segments in a log; at most one per operation. */
  function CurveCount(log: seq<PaintOp>): (c: nat)
    ensures c <= |log|
  {
    if log == [] then 0 else (if log[0].Curve? then 1 else 0) + CurveCount(log[1..])
  }

  /** Counting curves distributes over concatenation of logs. */
  lemma {:induction false} CurveCountAppend(a: seq<PaintOp>, b: seq<PaintOp>)
    ensures CurveCount(a + b) == CurveCount(a) + CurveCount(b)
  {
    if a != [] {
      assert (a + b)[1..] == a[1..] + b;
      CurveCountAppend(a[1..], b);
    } else {
      assert a + b == b;
    }
  }

  /** A log with no curve operation counts no curves. */
  lemma {:induction false} CurveCountNone(log: seq<PaintOp>)
    requires forall i :: 0 <= i < |log| ==> !log[i].Curve?
    ensures CurveCount(log) == 0
  {
    if log != [] {
      CurveCountNone(log[1..]);
    }
  }
}
