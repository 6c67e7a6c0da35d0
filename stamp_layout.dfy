/** The seal stamp's glyph layout (components/Canvas.tsx, `drawStamp`).
    Offsets are relative to the stamp's centre. */
module StampLayout {
  import opened Types
  import opened BrushConfig
  import opened PaintLog

  /** The font size: smaller for texts of more than two code units, and
      in a box of positive side always less than the side. */
  function StampFontSize(n: nat, size: real): (f: real)
    ensures 0.0 < size ==> 0.0 < f < size
  {
    if n > 2 then size / 2.2 else size / 1.6
  }

  /** The glyphs `drawStamp` writes for `text` in a stamp of side `size`:
      a 2x2 grid for four code units, a vertical pair for two, and
      otherwise one centred glyph of at most the first three units. */
  function StampGlyphs(text: seq<CodeUnit>, size: real): (g: seq<PaintOp>)
    ensures |g| == (if |text| == 4 then 4 else if |text| == 2 then 2 else 1)
    ensures forall i :: 0 <= i < |g| ==> g[i].Glyph? && g[i].fontSize == StampFontSize(|text|, size)
  {
    var f := StampFontSize(|text|, size);
    var q := size / 4.0;
    if |text| == 4 then
      [Glyph([text[0]], -q, -q, f), Glyph([text[1]], q, -q, f),
       Glyph([text[2]], -q, q, f), Glyph([text[3]], q, q, f)]
    else if |text| == 2 then
      [Glyph([text[0]], 0.0, -q, f), Glyph([text[1]], 0.0, q, f)]
    else
      [Glyph(text[..if |text| < 3 then |text| else 3], 0.0, 0.0, f)]
  }

  /** The code units a seal shows: a prefix of the text, which is the whole
      text exactly when it has at most four units, and otherwise its first
      three units. */
  function SealText(text: seq<CodeUnit>): (s: seq<CodeUnit>)
    ensures s <= text
    ensures s == text <==> |text| <= 4
    ensures 4 < |text| ==> |s| == 3
  {
    if |text| == 4 || |text| == 2 then text else text[..if |text| < 3 then |text| else 3]
  }

  /** Everything one stamp press paints: the seal box at the press point,
      then glyphs of the configured font size that spell the seal's text,
      centred on the press point and with no brush curve among them. */
  function StampOps(x: real, y: real, text: seq<CodeUnit>): (ops: seq<PaintOp>)
    ensures |ops| == (if |text| == 4 then 5 else if |text| == 2 then 3 else 2)
    ensures ops[0] == SealBox(Pos(x, y), StampSize)
    ensures forall i :: 1 <= i < |ops| ==>
      ops[i].Glyph? && ops[i].fontSize == StampFontSize(|text|, StampSize)
    ensures Spelled(ops) == SealText(text)
    ensures OffsetSum(ops) == Pos(0.0, 0.0)
    ensures CurveCount(ops) == 0
  {
    var g := StampGlyphs(text, StampSize);
    var ops := [SealBox(Pos(x, y), StampSize)] + g;
    assert ops[1..] == g;
    StampSpellsText(text, StampSize);
    StampLayoutCentred(text, StampSize);
    CurveCountNone(ops);
    ops
  }

  /** A stamp is its seal box followed by its glyphs. This only unfolds
      `StampOps`; it lets a caller reason about the stamp's operations
      without its whole contract in view. */
  lemma StampOpsLayout(x: real, y: real, text: seq<CodeUnit>)
    ensures StampOps(x, y, text) == [SealBox(Pos(x, y), StampSize)] + StampGlyphs(text, StampSize)
  {
  }

  /** The text the glyph operations of a log spell, in painting order. */
  function Spelled(ops: seq<PaintOp>): (s: seq<CodeUnit>)
  {
    if ops == [] then []
    else (if ops[0].Glyph? then ops[0].text else []) + Spelled(ops[1..])
  }

  /** The stamp spells its whole text when it has two or four code units,
      and otherwise exactly the first three (or fewer) units: nothing is
      reordered, duplicated or invented. */
  lemma StampSpellsText(text: seq<CodeUnit>, size: real)
    ensures Spelled(StampGlyphs(text, size)) == SealText(text)
  {
    var g := StampGlyphs(text, size);
    if |text| == 4 {
      assert Spelled(g[3..]) == [text[3]];
      assert Spelled(g[2..]) == [text[2], text[3]];
      assert Spelled(g[1..]) == [text[1], text[2], text[3]];
      assert Spelled(g) == [text[0], text[1], text[2], text[3]];
    } else if |text| == 2 {
      assert Spelled(g[1..]) == [text[1]];
      assert Spelled(g) == [text[0], text[1]];
    } else {
      assert Spelled(g[1..]) == [];
    }
  }

  /** No glyph is placed outside the inner half of the box: every offset
      is at most a quarter of the side from the centre. */
  lemma StampGlyphsInsideBox(text: seq<CodeUnit>, size: real)
    requires 0.0 <= size
    ensures var g := StampGlyphs(text, size);
      forall i :: 0 <= i < |g| ==>
        -size / 4.0 <= g[i].dx <= size / 4.0 && -size / 4.0 <= g[i].dy <= size / 4.0
  {
  }

  /** The sum of the glyphs' horizontal and vertical offsets. */
  function OffsetSum(ops: seq<PaintOp>): (sum: Pos)
  {
    if ops == [] then Pos(0.0, 0.0)
    else
      var rest := OffsetSum(ops[1..]);
      if ops[0].Glyph? then Pos(ops[0].dx + rest.x, ops[0].dy + rest.y) else rest
  }

  /** The layout is centred on the press point: the offsets balance out. */
  lemma StampLayoutCentred(text: seq<CodeUnit>, size: real)
    ensures OffsetSum(StampGlyphs(text, size)) == Pos(0.0, 0.0)
  {
    var g := StampGlyphs(text, size);
    if |text| == 4 {
      assert OffsetSum(g[3..]) == Pos(size / 4.0, size / 4.0);
      assert OffsetSum(g[2..]) == Pos(0.0, size / 2.0);
      assert OffsetSum(g[1..]) == Pos(size / 4.0, size / 4.0);
    } else if |text| == 2 {
      assert OffsetSum(g[1..]) == Pos(0.0, size / 4.0);
    } else {
      assert OffsetSum(g[1..]) == Pos(0.0, 0.0);
    }
  }

  /** Four code units fill the grid in reading order (top row left to
      right, then the bottom row), one unit per cell. */
  lemma StampGridOrder(text: seq<CodeUnit>, size: real, i: nat)
    requires |text| == 4 && i < 4
    ensures var g := StampGlyphs(text, size); var q := size / 4.0;
      g[i] == Glyph([text[i]], if i % 2 == 0 then -q else q, if i < 2 then -q else q, size / 2.2)
  {
  }

  /** Two code units are stacked vertically, the first on top. */
  lemma StampPairOrder(text: seq<CodeUnit>, size: real, i: nat)
    requires |text| == 2 && i < 2
    ensures var g := StampGlyphs(text, size); var q := size / 4.0;
      g[i] == Glyph([text[i]], 0.0, if i == 0 then -q else q, size / 1.6)
  {
  }

  /** In a stamp of positive size no two glyphs share a position. */
  lemma StampGlyphsApart(text: seq<CodeUnit>, size: real, i: nat, j: nat)
    requires 0.0 < size
    requires i < j < |StampGlyphs(text, size)|
    ensures var g := StampGlyphs(text, size); g[i].dx != g[j].dx || g[i].dy != g[j].dy
  {
  }

  /** Longer texts get the smaller font. */
  lemma LongTextGetsSmallerFont(n: nat, m: nat, size: real)
    requires 0.0 < size
    requires m <= 2 < n
    ensures StampFontSize(n, size) < StampFontSize(m, size)
  {
    assert size / 2.2 < size / 1.6 by {
      assert size / 2.2 * 2.2 == size;
      assert size / 1.6 * 1.6 == size;
    }
  }

  /** With the configured 60-pixel stamp the quadrant offsets are 15 pixels
      and the two font sizes are 60/2.2 and 37.5. */
  lemma StampConstants()
    ensures StampSize / 4.0 == 15.0
    ensures StampFontSize(4, StampSize) == 60.0 / 2.2
    ensures StampFontSize(2, StampSize) == 37.5
  {
  }
}
