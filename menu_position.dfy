/** The menu's position strategies. A horizontal strategy maps the anchor's
    bounds, the window's size, the menu's width and the layout direction to
    the menu's x; a vertical one maps the anchor's bounds, the window's size
    and the menu's height to its y. Each axis has two kinds:

    - anchor-relative: align a point of the menu (its start, end or centre)
      with a point of the anchor, then add a pixel offset, negated in
      right-to-left layouts for the horizontal axis;
    - window-relative: align the menu inside the window, then clamp it so
      that it keeps `margin` pixels from both window edges; a menu too large
      for that is centred over the whole window instead.

    The nine named strategies the dropdown menu uses are built by the
    factory functions below (`StartToAnchorStart` … `BottomToWindowBottom`). */
module MenuPosition {
  import opened Geometry
  import opened Alignment

  /** `MenuPosition.Horizontal`, closed over its two implementations. */
  datatype Horizontal =
    | HorizontalAnchorOffset(menuAlignment: HorizontalAlignment, anchorAlignment: HorizontalAlignment, offset: int)
    | HorizontalWindowMargin(alignment: HorizontalAlignment, margin: int)

  /** `MenuPosition.Vertical`, closed over its two implementations. */
  datatype Vertical =
    | VerticalAnchorOffset(menuAlignment: VerticalAlignment, anchorAlignment: VerticalAlignment, offset: int)
    | VerticalWindowMargin(alignment: VerticalAlignment, margin: int)

  // ---------------------------------------------------------------------
  // The nine factories

  function StartToAnchorStart(offset: int): Horizontal { HorizontalAnchorOffset(Start, Start, offset) }

  function EndToAnchorEnd(offset: int): Horizontal { HorizontalAnchorOffset(End, End, offset) }

  function LeftToWindowLeft(margin: int): Horizontal { HorizontalWindowMargin(AbsoluteLeft, margin) }

  function RightToWindowRight(margin: int): Horizontal { HorizontalWindowMargin(AbsoluteRight, margin) }

  function TopToAnchorBottom(offset: int): Vertical { VerticalAnchorOffset(Top, Bottom, offset) }

  function BottomToAnchorTop(offset: int): Vertical { VerticalAnchorOffset(Bottom, Top, offset) }

  function CenterToAnchorTop(offset: int): Vertical { VerticalAnchorOffset(CenterVertically, Top, offset) }

  function TopToWindowTop(margin: int): Vertical { VerticalWindowMargin(Top, margin) }

  function BottomToWindowBottom(margin: int): Vertical { VerticalWindowMargin(Bottom, margin) }

  // ---------------------------------------------------------------------
  // Dispatch

  /** `MenuPosition.Horizontal.position`. */
  function HorizontalPosition(p: Horizontal, anchorBounds: IntRect, windowSize: IntSize,
                              menuWidth: int, dir: LayoutDirection): int
  {
    match p
    case HorizontalAnchorOffset(menuAlignment, anchorAlignment, offset) =>
      AnchorOffsetX(menuAlignment, anchorAlignment, offset, anchorBounds, menuWidth, dir)
    case HorizontalWindowMargin(alignment, margin) =>
      WindowMarginX(alignment, margin, windowSize, menuWidth, dir)
  }

  /** `MenuPosition.Vertical.position`. */
  function VerticalPosition(p: Vertical, anchorBounds: IntRect, windowSize: IntSize, menuHeight: int): int
  {
    match p
    case VerticalAnchorOffset(menuAlignment, anchorAlignment, offset) =>
      AnchorOffsetY(menuAlignment, anchorAlignment, offset, anchorBounds, menuHeight)
    case VerticalWindowMargin(alignment, margin) =>
      WindowMarginY(alignment, margin, windowSize, menuHeight)
  }

  // ---------------------------------------------------------------------
  // Anchor-relative strategies

  /** The offset as it applies to x: added left-to-right, subtracted right-to-left. */
  function ResolvedOffset(offset: int, dir: LayoutDirection): int {
    if dir == Ltr then offset else -offset
  }

  /** `AnchorAlignmentOffsetPosition.Horizontal.position`: the anchor point
      chosen by `anchorAlignment`, minus the menu point chosen by
      `menuAlignment`, plus the resolved offset. */
  function AnchorOffsetX(menuAlignment: HorizontalAlignment, anchorAlignment: HorizontalAlignment, offset: int,
                         anchorBounds: IntRect, menuWidth: int, dir: LayoutDirection): int
  {
    anchorBounds.left
    + AlignHorizontal(anchorAlignment, 0, anchorBounds.Width(), dir)
    - AlignHorizontal(menuAlignment, 0, menuWidth, dir)
    + ResolvedOffset(offset, dir)
  }

  /** `AnchorAlignmentOffsetPosition.Vertical.position`; no layout direction. */
  function AnchorOffsetY(menuAlignment: VerticalAlignment, anchorAlignment: VerticalAlignment, offset: int,
                         anchorBounds: IntRect, menuHeight: int): int
  {
    anchorBounds.top
    + AlignVertical(anchorAlignment, 0, anchorBounds.Height())
    - AlignVertical(menuAlignment, 0, menuHeight)
    + offset
  }

  // ---------------------------------------------------------------------
  // Window-relative strategies

  /** Kotlin's `coerceIn(lo, hi)`, which throws when `lo > hi`: the value
      itself when it lies in [lo, hi], otherwise the bound it passed. */
  function CoerceIn(v: int, lo: int, hi: int): (r: int)
    requires lo <= hi
    ensures lo <= r <= hi
    ensures lo <= v <= hi ==> r == v
    ensures v < lo ==> r == lo
    ensures v > hi ==> r == hi
  {
    if v < lo then lo else if v > hi then hi else v
  }

  /** True when the menu cannot keep `margin` pixels from both window edges. */
  predicate Oversized(menuDim: int, windowDim: int, margin: int) {
    menuDim >= windowDim - 2 * margin
  }

  /** `WindowAlignmentMarginPosition.Horizontal.position`. An oversized menu
      is centred over the full window width; otherwise the menu lies inside
      the margins, and for a non-negative margin it rests against the left
      margin for a left alignment and against the right margin for a right
      one. A centring alignment centres the menu either way. */
  function WindowMarginX(alignment: HorizontalAlignment, margin: int, windowSize: IntSize,
                         menuWidth: int, dir: LayoutDirection): (x: int)
    ensures Oversized(menuWidth, windowSize.width, margin) ==> 0 <= 2 * x - (windowSize.width - menuWidth) <= 1
    ensures !Oversized(menuWidth, windowSize.width, margin) ==> margin <= x <= windowSize.width - margin - menuWidth
    ensures margin >= 0 && !Oversized(menuWidth, windowSize.width, margin) && Resolve(alignment, dir) == AtLeft
            ==> x == margin
    ensures margin >= 0 && !Oversized(menuWidth, windowSize.width, margin) && Resolve(alignment, dir) == AtRight
            ==> x + menuWidth == windowSize.width - margin
    ensures Resolve(alignment, dir) == InMiddle ==> 0 <= 2 * x - (windowSize.width - menuWidth) <= 1
  {
    if Oversized(menuWidth, windowSize.width, margin) then
      AlignHorizontal(CenterHorizontally, menuWidth, windowSize.width, dir)
    else
      CoerceIn(AlignHorizontal(alignment, menuWidth, windowSize.width, dir),
               margin, windowSize.width - margin - menuWidth)
  }

  /** `WindowAlignmentMarginPosition.Vertical.position`, the same rule on
      the vertical axis: top margin for a top alignment, bottom margin for a
      bottom one, centred when oversized or centring. */
  function WindowMarginY(alignment: VerticalAlignment, margin: int, windowSize: IntSize, menuHeight: int): (y: int)
    ensures Oversized(menuHeight, windowSize.height, margin) ==> 0 <= 2 * y - (windowSize.height - menuHeight) <= 1
    ensures !Oversized(menuHeight, windowSize.height, margin) ==> margin <= y <= windowSize.height - margin - menuHeight
    ensures margin >= 0 && !Oversized(menuHeight, windowSize.height, margin) && alignment == Top
            ==> y == margin
    ensures margin >= 0 && !Oversized(menuHeight, windowSize.height, margin) && alignment == Bottom
            ==> y + menuHeight == windowSize.height - margin
    ensures alignment == CenterVertically ==> 0 <= 2 * y - (windowSize.height - menuHeight) <= 1
  {
    if Oversized(menuHeight, windowSize.height, margin) then
      AlignVertical(CenterVertically, menuHeight, windowSize.height)
    else
      CoerceIn(AlignVertical(alignment, menuHeight, windowSize.height),
               margin, windowSize.height - margin - menuHeight)
  }

  // ---------------------------------------------------------------------
  // The named strategies in closed form

  /** The menu's start edge sits on the anchor's start edge, moved by the
      offset toward the end: `left + offset` left-to-right,
      `right - width - offset` right-to-left. */
  lemma StartToAnchorStartPosition(offset: int, anchorBounds: IntRect, windowSize: IntSize,
                                   menuWidth: int, dir: LayoutDirection)
    ensures var x := HorizontalPosition(StartToAnchorStart(offset), anchorBounds, windowSize, menuWidth, dir);
            if dir == Ltr then x == anchorBounds.left + offset
            else x == anchorBounds.right - menuWidth - offset
  {
  }

  /** The menu's end edge sits on the anchor's end edge, moved by the
      offset toward the end: `right - width + offset` left-to-right,
      `left - offset` right-to-left. */
  lemma EndToAnchorEndPosition(offset: int, anchorBounds: IntRect, windowSize: IntSize,
                               menuWidth: int, dir: LayoutDirection)
    ensures var x := HorizontalPosition(EndToAnchorEnd(offset), anchorBounds, windowSize, menuWidth, dir);
            if dir == Ltr then x == anchorBounds.right - menuWidth + offset
            else x == anchorBounds.left - offset
  {
  }

  /** The menu's top edge sits on the anchor's bottom edge, moved down by the offset. */
  lemma TopToAnchorBottomPosition(offset: int, anchorBounds: IntRect, windowSize: IntSize, menuHeight: int)
    ensures VerticalPosition(TopToAnchorBottom(offset), anchorBounds, windowSize, menuHeight)
            == anchorBounds.bottom + offset
  {
  }

  /** The menu's bottom edge sits on the anchor's top edge, moved down by the offset. */
  lemma BottomToAnchorTopPosition(offset: int, anchorBounds: IntRect, windowSize: IntSize, menuHeight: int)
    ensures VerticalPosition(BottomToAnchorTop(offset), anchorBounds, windowSize, menuHeight)
            == anchorBounds.top - menuHeight + offset
  {
  }

  /** The menu's vertical centre (rounded half a pixel down the screen)
      sits on the anchor's top edge, moved down by the offset. */
  lemma CenterToAnchorTopPosition(offset: int, anchorBounds: IntRect, windowSize: IntSize, menuHeight: int)
    ensures var y := VerticalPosition(CenterToAnchorTop(offset), anchorBounds, windowSize, menuHeight);
            0 <= 2 * (anchorBounds.top + offset - y) - menuHeight <= 1
  {
  }

  /** Left-to-window-left keeps exactly the left margin and right-to-window-right
      exactly the right margin unless the menu is oversized, whatever the
      layout direction; when oversized both centre the menu over the window. */
  lemma WindowEdgeStrategies(margin: int, anchorBounds: IntRect, windowSize: IntSize,
                             menuWidth: int, dir: LayoutDirection)
    requires margin >= 0
    ensures var l := HorizontalPosition(LeftToWindowLeft(margin), anchorBounds, windowSize, menuWidth, dir);
            var r := HorizontalPosition(RightToWindowRight(margin), anchorBounds, windowSize, menuWidth, dir);
            if Oversized(menuWidth, windowSize.width, margin) then
              l == r && 0 <= 2 * l - (windowSize.width - menuWidth) <= 1
            else
              l == margin && r == windowSize.width - margin - menuWidth
  {
  }

  /** The vertical counterpart: top and bottom margins, or centred when oversized. */
  lemma WindowEdgeStrategiesVertical(margin: int, anchorBounds: IntRect, windowSize: IntSize, menuHeight: int)
    requires margin >= 0
    ensures var t := VerticalPosition(TopToWindowTop(margin), anchorBounds, windowSize, menuHeight);
            var b := VerticalPosition(BottomToWindowBottom(margin), anchorBounds, windowSize, menuHeight);
            if Oversized(menuHeight, windowSize.height, margin) then
              t == b && 0 <= 2 * t - (windowSize.height - menuHeight) <= 1
            else
              t == margin && b == windowSize.height - margin - menuHeight
  {
  }

  /** A menu exactly as wide as the window is placed at 0 by a window
      strategy, whatever its margin (a negative margin's clamp interval
      [m, -m] contains 0): a 100-pixel menu in a 100-pixel window
      with a 10-pixel margin, left-aligned, starts at x = 0. */
  lemma FullWidthMenuAtZero(alignment: HorizontalAlignment, margin: int, anchorBounds: IntRect,
                            windowSize: IntSize, dir: LayoutDirection)
    ensures HorizontalPosition(HorizontalWindowMargin(alignment, margin), anchorBounds, windowSize,
                               windowSize.width, dir) == 0
  {
  }

  // ---------------------------------------------------------------------
  // Which inputs each kind reads

  /** Window-relative strategies do not look at the anchor. */
  lemma WindowStrategiesIgnoreAnchor(h: Horizontal, v: Vertical, a1: IntRect, a2: IntRect,
                                     windowSize: IntSize, menuSize: IntSize, dir: LayoutDirection)
    requires h.HorizontalWindowMargin? && v.VerticalWindowMargin?
    ensures HorizontalPosition(h, a1, windowSize, menuSize.width, dir)
            == HorizontalPosition(h, a2, windowSize, menuSize.width, dir)
    ensures VerticalPosition(v, a1, windowSize, menuSize.height)
            == VerticalPosition(v, a2, windowSize, menuSize.height)
  {
  }

  /** Anchor-relative strategies do not look at the window. */
  lemma AnchorStrategiesIgnoreWindow(h: Horizontal, v: Vertical, anchorBounds: IntRect,
                                     w1: IntSize, w2: IntSize, menuSize: IntSize, dir: LayoutDirection)
    requires h.HorizontalAnchorOffset? && v.VerticalAnchorOffset?
    ensures HorizontalPosition(h, anchorBounds, w1, menuSize.width, dir)
            == HorizontalPosition(h, anchorBounds, w2, menuSize.width, dir)
    ensures VerticalPosition(v, anchorBounds, w1, menuSize.height)
            == VerticalPosition(v, anchorBounds, w2, menuSize.height)
  {
  }

  // ---------------------------------------------------------------------
  // Layout direction

  /** The same strategy for the opposite layout direction: start and end
      swapped and, for anchor-relative strategies, the offset negated. */
  function MirrorStrategy(p: Horizontal): Horizontal {
    match p
    case HorizontalAnchorOffset(m, a, offset) => HorizontalAnchorOffset(Mirror(m), Mirror(a), -offset)
    case HorizontalWindowMargin(a, margin) => HorizontalWindowMargin(Mirror(a), margin)
  }

  /** A horizontal strategy in a right-to-left layout places the menu where
      its mirror places it in a left-to-right layout. */
  lemma DirectionSymmetry(p: Horizontal, anchorBounds: IntRect, windowSize: IntSize, menuWidth: int)
    ensures HorizontalPosition(p, anchorBounds, windowSize, menuWidth, Rtl)
            == HorizontalPosition(MirrorStrategy(p), anchorBounds, windowSize, menuWidth, Ltr)
  {
    match p
    case HorizontalAnchorOffset(m, a, offset) =>
      AlignMirror(m, 0, menuWidth);
      AlignMirror(a, 0, anchorBounds.Width());
    case HorizontalWindowMargin(a, margin) =>
      AlignMirror(a, menuWidth, windowSize.width);
  }

  /** In particular, start-to-anchor-start right-to-left is
      end-to-anchor-end left-to-right with the offset negated, and the
      converse. */
  lemma StartEndSwapUnderRtl(offset: int, anchorBounds: IntRect, windowSize: IntSize, menuWidth: int)
    ensures HorizontalPosition(StartToAnchorStart(offset), anchorBounds, windowSize, menuWidth, Rtl)
            == HorizontalPosition(EndToAnchorEnd(-offset), anchorBounds, windowSize, menuWidth, Ltr)
    ensures HorizontalPosition(EndToAnchorEnd(offset), anchorBounds, windowSize, menuWidth, Rtl)
            == HorizontalPosition(StartToAnchorStart(-offset), anchorBounds, windowSize, menuWidth, Ltr)
  {
    DirectionSymmetry(StartToAnchorStart(offset), anchorBounds, windowSize, menuWidth);
    DirectionSymmetry(EndToAnchorEnd(offset), anchorBounds, windowSize, menuWidth);
  }
}
