/** Integer geometry shared by the placement engine and the pivot calculation:
    rectangles, sizes and offsets in window pixels, the layout direction, and
    integer division as the JVM performs it. Coordinates and sizes are
    unbounded integers; 32-bit wrap-around is not modelled. */
module Geometry {

  /** The reading direction of the layout: it decides what "start" and "end" mean. */
  datatype LayoutDirection = Ltr | Rtl

  /** A pixel position, relative to the window. */
  datatype IntOffset = IntOffset(x: int, y: int)

  /** A pixel size. Sizes measured by the layout are never negative, but the
      type itself does not enforce that, so neither does the model. */
  datatype IntSize = IntSize(width: int, height: int)

  /** A rectangle given by its four edges, in window pixels. */
  datatype IntRect = IntRect(left: int, top: int, right: int, bottom: int) {

    function Width(): int { right - left }

    function Height(): int { bottom - top }

    /** The centre point, rounded toward the top-left corner for
        non-negative extents: `left + width / 2`, `top + height / 2`,
        with the JVM's truncating division. */
    function Center(): IntOffset {
      IntOffset(left + TruncDiv(Width(), 2), top + TruncDiv(Height(), 2))
    }

    /** Left edge not right of the right edge, top not below the bottom. */
    predicate WellFormed() { left <= right && top <= bottom }
  }

  /** The rectangle whose top-left corner is `offset` and whose extent is
      `size` (Compose's `IntRect(offset, size)`). */
  function RectAt(offset: IntOffset, size: IntSize): (r: IntRect)
    ensures r.left == offset.x && r.top == offset.y
    ensures r.Width() == size.width && r.Height() == size.height
  {
    IntRect(offset.x, offset.y, offset.x + size.width, offset.y + size.height)
  }

  function Abs(n: int): nat { if n < 0 then -n else n }

  /** Integer division rounding toward zero, as Kotlin's `Int /` does
      (Dafny's own `/` is Euclidean). The divisor must be non-zero: the JVM
      throws on zero. The remainder `n - d * q` is smaller than the divisor
      in magnitude and never has the opposite sign of `n`, which singles out
      the truncated quotient. */
  function TruncDiv(n: int, d: int): (q: int)
    requires d != 0
    ensures Abs(n - d * q) < Abs(d)
    ensures n >= 0 ==> n - d * q >= 0
    ensures n <= 0 ==> n - d * q <= 0
  {
    if n >= 0 then n / d else -((-n) / d)
  }

  /** Halving with truncation lands between the two integers being averaged. */
  lemma TruncHalfBetween(lo: int, hi: int)
    requires lo <= hi
    ensures lo <= TruncDiv(lo + hi, 2) <= hi
  {
    var q := TruncDiv(lo + hi, 2);
    assert Abs(lo + hi - 2 * q) < 2;
  }
}
