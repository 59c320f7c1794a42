/**
 * The component's colour constants (src/app/components/project.component.ts:26-34)
 * and the two other colours its shapes use.
 */
module Palette {

  /** B, R, Y, G and DI are the `COLORS` table; Grey is `GREY_COLOR`; White the rectangle fill. */
  datatype Color = B | R | Y | G | DI | Grey | White

  /** The CSS hex string each colour stands for. */
  function Hex(c: Color): string {
    match c
    case B => "#1783FF"
    case R => "#F46649"
    case Y => "#DB9D0D"
    case G => "#60C42D"
    case DI => "#A7A7A7"
    case Grey => "#CED4D9"
    case White => "#ffffff"
  }

  /** The rectangle's shadow colour, which is not part of the table. */
  const SHADOW_COLOR: string := "rgba(0,0,0,0.1)"

  /** Distinct colours are distinct strings, so a colour decision is visible on screen. */
  lemma HexInjective(c1: Color, c2: Color)
    ensures Hex(c1) == Hex(c2) ==> c1 == c2
  {
  }
}
