/** The record types shared by the drawing surface and its helpers (types.ts). */
module Types {

  /** The three tools of the toolbar: the thick brush (futo-fude), the thin
      brush (hoso-fude) and the seal stamp (hanko). */
  datatype Tool = FutoFude | HosoFude | Stamp

  /** One pointer sample of a stroke: a position in surface-relative logical
      pixels, the brush width at that sample and a timestamp in milliseconds.
      Timestamps are reals because a midpoint of two samples halves the sum
      of their times. */
  datatype Point = Point(x: real, y: real, width: real, time: real)

  /** A UTF-16 code unit: the unit in which JavaScript strings are measured
      (`length`), indexed (`s[i]`) and sliced (`substring`). */
  newtype CodeUnit = u: int | 0 <= u < 0x1_0000
}
