/** What the anti-aliased rasterizers share: colours, the alpha-only colour
    blend, the blend divisor, and the decision whether a blended pixel is
    drawn at all. */
module Blend {

  newtype byte = b: int | 0 <= b < 256

  datatype Color = Color(r: byte, g: byte, b: byte, a: byte)

  /** aacolor: the colour with its red, green and blue kept and its alpha
      replaced. The source computes the new alpha as the old one scaled by a
      float blend ratio; here the new alpha is given. The rasterizer models
      record only the base colour of a blended batch, so this function
      stands alone: it states what aacolor keeps and what it replaces. */
  function AAColor(color: Color, alpha: byte): (blended: Color)
    ensures blended.a == alpha
    ensures (blended.r, blended.g, blended.b) == (color.r, color.g, color.b)
  {
    color.(a := alpha)
  }

  /** aacolor with its default ratio 1 gives back the alpha it was given
      (int(a * 1.0) == a for a byte a), and so an equal colour. */
  lemma AAColorDefaultRatio(color: Color)
    ensures AAColor(color, color.a) == color
  {
  }

  /** The divisor of every blend value in both anti-aliased rasterizers,
      2 r - 1. It is odd, so no blend value divides by zero. */
  function BlendDivisor(r: int): (res: int)
    ensures res % 2 == 1
    ensures res != 0
  {
    2 * r - 1
  }

  /** Which pixel of a pass a blend value belongs to: the pixel on the arc,
      the one just outside it, or the one just inside it. */
  datatype Part = OnArc | Outward | Inward

  /** Whether the pixel of the given part is drawn, decided from the
      loop-head offset (x, y) and error. The source compares a float blend
      value with 1; the model leaves that comparison to the caller. */
  type Gate = (Part, int, int, int) -> bool
}
