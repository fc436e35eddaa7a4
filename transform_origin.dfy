/** The pivot of the menu's scale animation. Each axis is handled on its
    own: a menu entirely after the anchor grows from its near edge (0), one
    entirely before it from its far edge (1), a menu of zero extent from 0,
    and otherwise from the middle of the stretch where menu and anchor
    overlap, as a fraction of the menu's extent. The middle is taken with
    the JVM's truncating integer division; the final division is exact here
    (the source divides single-precision floats). */
module TransformOrigin {
  import opened Geometry

  /** Compose's `TransformOrigin`: fractions of the menu's width and height. */
  datatype TransformOrigin = TransformOrigin(pivotFractionX: real, pivotFractionY: real)

  function Max(a: int, b: int): int { if a >= b then a else b }

  function Min(a: int, b: int): int { if a <= b then a else b }

  /** The middle of the overlap of [anchorNear, anchorFar] and [menuNear, menuFar],
      rounded toward zero. */
  function OverlapCenter(anchorNear: int, anchorFar: int, menuNear: int, menuFar: int): int {
    TruncDiv(Max(anchorNear, menuNear) + Min(anchorFar, menuFar), 2)
  }

  /** The pivot fraction along one axis. */
  function PivotFraction(anchorNear: int, anchorFar: int, menuNear: int, menuFar: int): real {
    if menuNear >= anchorFar then 0.0
    else if menuFar <= anchorNear then 1.0
    else if menuFar - menuNear == 0 then 0.0
    else (OverlapCenter(anchorNear, anchorFar, menuNear, menuFar) - menuNear) as real
         / (menuFar - menuNear) as real
  }

  /** `calculateTransformOrigin(anchorBounds, menuBounds)`. */
  function CalculateTransformOrigin(anchorBounds: IntRect, menuBounds: IntRect): TransformOrigin {
    TransformOrigin(
      PivotFraction(anchorBounds.left, anchorBounds.right, menuBounds.left, menuBounds.right),
      PivotFraction(anchorBounds.top, anchorBounds.bottom, menuBounds.top, menuBounds.bottom))
  }

  /** The degenerate cases, tested in this order on each axis: a menu
      starting at or after the anchor's far edge gives 0, else a menu ending
      at or before the anchor's near edge gives 1, else a menu of zero
      extent gives 0. */
  lemma PivotBranchOrder(anchorBounds: IntRect, menuBounds: IntRect)
    ensures var o := CalculateTransformOrigin(anchorBounds, menuBounds);
            && (menuBounds.left >= anchorBounds.right ==> o.pivotFractionX == 0.0)
            && (menuBounds.left < anchorBounds.right && menuBounds.right <= anchorBounds.left
                ==> o.pivotFractionX == 1.0)
            && ((menuBounds.left < anchorBounds.right && menuBounds.right > anchorBounds.left
                 && menuBounds.Width() == 0) ==> o.pivotFractionX == 0.0)
            && (menuBounds.top >= anchorBounds.bottom ==> o.pivotFractionY == 0.0)
            && (menuBounds.top < anchorBounds.bottom && menuBounds.bottom <= anchorBounds.top
                ==> o.pivotFractionY == 1.0)
            && ((menuBounds.top < anchorBounds.bottom && menuBounds.bottom > anchorBounds.top
                 && menuBounds.Height() == 0) ==> o.pivotFractionY == 0.0)
  {
  }

  /** When the menu overlaps the anchor on an axis (and is not degenerate),
      the overlap's truncated middle lies on the menu. */
  lemma OverlapCenterOnMenu(anchorNear: int, anchorFar: int, menuNear: int, menuFar: int)
    requires menuNear < anchorFar && anchorNear < menuFar && menuNear < menuFar
    ensures menuNear <= OverlapCenter(anchorNear, anchorFar, menuNear, menuFar) <= menuFar
  {
    var lo, hi := Max(anchorNear, menuNear), Min(anchorFar, menuFar);
    if lo <= hi {
      TruncHalfBetween(lo, hi);
    } else {
      TruncHalfBetween(hi, lo);
    }
  }

  /** One axis's pivot fraction is within [0, 1] for a menu whose far edge
      is not before its near edge. */
  lemma PivotFractionInUnitInterval(anchorNear: int, anchorFar: int, menuNear: int, menuFar: int)
    requires menuNear <= menuFar
    ensures 0.0 <= PivotFraction(anchorNear, anchorFar, menuNear, menuFar) <= 1.0
  {
    if menuNear < anchorFar && anchorNear < menuFar && menuFar - menuNear != 0 {
      OverlapCenterOnMenu(anchorNear, anchorFar, menuNear, menuFar);
      var c := OverlapCenter(anchorNear, anchorFar, menuNear, menuFar);
      FractionInUnitInterval((c - menuNear) as real, (menuFar - menuNear) as real);
    }
  }

  /** A non-negative quotient not larger than its positive divisor is at most 1. */
  lemma FractionInUnitInterval(a: real, w: real)
    requires 0.0 <= a <= w && 0.0 < w
    ensures 0.0 <= a / w <= 1.0
  {
    var q := a / w;
    assert q * w == a;
    assert (1.0 - q) * w == w - a;
  }

  /** For a well-formed menu rectangle, on every path and whatever the
      anchor, the pivot lies within the unit square. */
  lemma TransformOriginInUnitSquare(anchorBounds: IntRect, menuBounds: IntRect)
    requires menuBounds.WellFormed()
    ensures var o := CalculateTransformOrigin(anchorBounds, menuBounds);
            0.0 <= o.pivotFractionX <= 1.0 && 0.0 <= o.pivotFractionY <= 1.0
  {
    PivotFractionInUnitInterval(anchorBounds.left, anchorBounds.right, menuBounds.left, menuBounds.right);
    PivotFractionInUnitInterval(anchorBounds.top, anchorBounds.bottom, menuBounds.top, menuBounds.bottom);
  }

  /** In the overlap case the pivot, taken back to pixels, is a point of the
      overlap of a well-formed anchor and menu, at most half a pixel from the
      overlap's exact middle. */
  lemma PivotInsideOverlap(anchorNear: int, anchorFar: int, menuNear: int, menuFar: int)
    requires anchorNear <= anchorFar && menuNear < menuFar
    requires menuNear < anchorFar && anchorNear < menuFar
    ensures var point := menuNear as real
                         + PivotFraction(anchorNear, anchorFar, menuNear, menuFar) * (menuFar - menuNear) as real;
            var lo, hi := Max(anchorNear, menuNear), Min(anchorFar, menuFar);
            && lo as real <= point <= hi as real
            && -1.0 <= 2.0 * point - (lo + hi) as real <= 1.0
  {
    var lo, hi := Max(anchorNear, menuNear), Min(anchorFar, menuFar);
    var c := OverlapCenter(anchorNear, anchorFar, menuNear, menuFar);
    TruncHalfBetween(lo, hi);
    assert Abs(lo + hi - 2 * c) < 2;
    var w := (menuFar - menuNear) as real;
    var p := PivotFraction(anchorNear, anchorFar, menuNear, menuFar);
    assert p == (c - menuNear) as real / w;
    QuotientTimesDivisor((c - menuNear) as real, w);
    assert p * w == (c - menuNear) as real;
    assert menuNear as real + p * w == c as real;
  }

  /** Multiplying a quotient by its positive divisor gives back the dividend. */
  lemma QuotientTimesDivisor(a: real, w: real)
    requires w > 0.0
    ensures (a / w) * w == a
  {
  }

  /** An anchor and a menu that coincide, with even width and height, give
      the centre pivot (0.5, 0.5). */
  lemma IdenticalEvenRectsPivotAtCenter(r: IntRect)
    requires r.Width() > 0 && r.Height() > 0 && r.Width() % 2 == 0 && r.Height() % 2 == 0
    ensures CalculateTransformOrigin(r, r) == TransformOrigin(0.5, 0.5)
  {
    HalfOfEvenExtent(r.left, r.right);
    HalfOfEvenExtent(r.top, r.bottom);
  }

  /** On a segment of positive even length, the pivot of the segment over
      itself is exactly one half. */
  lemma HalfOfEvenExtent(near: int, far: int)
    requires far - near > 0 && (far - near) % 2 == 0
    ensures PivotFraction(near, far, near, far) == 0.5
  {
    var c := OverlapCenter(near, far, near, far);
    assert Abs(near + far - 2 * c) < 2;
    assert 2 * (c - near) == far - near;
    var h := (c - near) as real;
    assert (far - near) as real == 2.0 * h;
    HalfOfDouble(h);
    assert PivotFraction(near, far, near, far) == h / (2.0 * h);
  }

  /** A positive number is half of its double. */
  lemma HalfOfDouble(h: real)
    requires h > 0.0
    ensures h / (2.0 * h) == 0.5
  {
    assert 0.5 * (2.0 * h) == h;
  }

  /** With an odd extent the truncated middle breaks the symmetry: a 3 by 3
      menu over the same 3 by 3 anchor at the origin pivots at (1/3, 1/3),
      not (0.5, 0.5). */
  lemma IdenticalOddRectsPivotOffCenter()
    ensures CalculateTransformOrigin(IntRect(0, 0, 3, 3), IntRect(0, 0, 3, 3)) == TransformOrigin(1.0 / 3.0, 1.0 / 3.0)
  {
  }

  /** Truncation rounds toward zero, so at negative coordinates an odd
      extent errs the other way: the same 3 by 3 square at (-3, -3, 0, 0)
      pivots at (2/3, 2/3). */
  lemma IdenticalOddRectsNegativePivotOffCenter()
    ensures CalculateTransformOrigin(IntRect(-3, -3, 0, 0), IntRect(-3, -3, 0, 0))
            == TransformOrigin(2.0 / 3.0, 2.0 / 3.0)
  {
  }

  /** A menu entirely below and to the right of its anchor grows from its
      top-left corner: anchor (0, 0, 10, 10), menu (20, 20, 30, 30). */
  lemma DisjointAfterPivotAtOrigin()
    ensures CalculateTransformOrigin(IntRect(0, 0, 10, 10), IntRect(20, 20, 30, 30)) == TransformOrigin(0.0, 0.0)
  {
  }
}
