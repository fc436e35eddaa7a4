/** The dropdown menu's popup position provider. Given the anchor's bounds,
    the window's size, the layout direction and the menu's measured size,
    it returns the menu's top-left offset:

    - x is the first of start-to-anchor-start, end-to-anchor-end and a
      window-edge strategy (left or right, by which half of the window holds
      the anchor's centre, margin 0) that keeps the whole menu inside the
      window, or the window-edge strategy's value when none does;
    - y depends on the anchor setting: `Auto` tries top-to-anchor-bottom,
      bottom-to-anchor-top, centre-to-anchor-top and a window-edge strategy
      (top or bottom, by the anchor's centre, with the vertical margin) and
      keeps the first that respects the vertical margin, or the last; every
      other setting applies one strategy with no test.

    The source also reports the anchor's bounds and the menu's bounds to a
    callback; here they are part of the result. The content offset and the
    vertical margin are taken in pixels. */
module DropdownMenu {
  import opened Geometry
  import MenuPosition
  import TransformOrigin

  /** The `DropdownMenuAnchor` setting: how the menu is placed vertically. */
  datatype DropdownMenuAnchor =
    | Auto
    | TopToAnchorBottom
    | BottomToAnchorTop
    | CenterToAnchorTop
    | TopToWindowTop
    | BottomToWindowBottom
    | AutoToWindow

  /** `DropdownMenuPositionProvider`'s configuration: the pixel content
      offset, the anchor setting and the vertical margin in pixels. */
  datatype DropdownMenuPositionProvider =
    DropdownMenuPositionProvider(contentOffset: IntOffset, anchor: DropdownMenuAnchor, verticalMargin: int)

  /** The provider's nine strategies, as its initialiser builds them. */
  datatype Strategies = Strategies(
    startToAnchorStart: MenuPosition.Horizontal,
    endToAnchorEnd: MenuPosition.Horizontal,
    leftToWindowLeft: MenuPosition.Horizontal,
    rightToWindowRight: MenuPosition.Horizontal,
    topToAnchorBottom: MenuPosition.Vertical,
    bottomToAnchorTop: MenuPosition.Vertical,
    centerToAnchorTop: MenuPosition.Vertical,
    topToWindowTop: MenuPosition.Vertical,
    bottomToWindowBottom: MenuPosition.Vertical)

  /** The provider's `init`: offsets from the content offset, horizontal
      window strategies with margin 0, vertical ones with the vertical margin. */
  function StrategiesOf(p: DropdownMenuPositionProvider): Strategies {
    Strategies(
      MenuPosition.StartToAnchorStart(p.contentOffset.x),
      MenuPosition.EndToAnchorEnd(p.contentOffset.x),
      MenuPosition.LeftToWindowLeft(0),
      MenuPosition.RightToWindowRight(0),
      MenuPosition.TopToAnchorBottom(p.contentOffset.y),
      MenuPosition.BottomToAnchorTop(p.contentOffset.y),
      MenuPosition.CenterToAnchorTop(p.contentOffset.y),
      MenuPosition.TopToWindowTop(p.verticalMargin),
      MenuPosition.BottomToWindowBottom(p.verticalMargin))
  }

  /** What one call computes: the returned offset, and the two rectangles
      handed to the position callback. */
  datatype PositionResult = PositionResult(menuOffset: IntOffset, anchorBounds: IntRect, menuBounds: IntRect)

  // ---------------------------------------------------------------------
  // First fitting candidate

  /** A coordinate `c` fits when the span [c, c + size] lies within [lo, hi]. */
  predicate Fits(c: int, size: int, lo: int, hi: int) {
    c >= lo && c + size <= hi
  }

  /** The index `fastFirstOrNull { fits } ?: last()` picks: the first
      fitting candidate, or the last candidate when none fits. */
  function FirstFitIndex(candidates: seq<int>, size: int, lo: int, hi: int): (k: nat)
    requires |candidates| > 0
    ensures k < |candidates|
    ensures forall j :: 0 <= j < k ==> !Fits(candidates[j], size, lo, hi)
    ensures Fits(candidates[k], size, lo, hi) || k == |candidates| - 1
    decreases |candidates|
  {
    if |candidates| == 1 || Fits(candidates[0], size, lo, hi) then 0
    else 1 + FirstFitIndex(candidates[1..], size, lo, hi)
  }

  function FirstFitOrLast(candidates: seq<int>, size: int, lo: int, hi: int): int
    requires |candidates| > 0
  {
    candidates[FirstFitIndex(candidates, size, lo, hi)]
  }

  // ---------------------------------------------------------------------
  // calculatePosition

  /** The horizontal last resort: left-aligned when the anchor's centre is
      in the left half of the window, right-aligned otherwise. */
  function WindowStrategyX(s: Strategies, anchorBounds: IntRect, windowSize: IntSize): MenuPosition.Horizontal {
    if anchorBounds.Center().x < TruncDiv(windowSize.width, 2) then s.leftToWindowLeft else s.rightToWindowRight
  }

  /** `autoToWindow`: top-aligned when the anchor's centre is in the top
      half of the window, bottom-aligned otherwise. */
  function AutoToWindowStrategy(s: Strategies, anchorBounds: IntRect, windowSize: IntSize): MenuPosition.Vertical {
    if anchorBounds.Center().y < TruncDiv(windowSize.height, 2) then s.topToWindowTop else s.bottomToWindowBottom
  }

  function XCandidates(s: Strategies, anchorBounds: IntRect, windowSize: IntSize,
                       dir: LayoutDirection, menuWidth: int): seq<int>
  {
    [ MenuPosition.HorizontalPosition(s.startToAnchorStart, anchorBounds, windowSize, menuWidth, dir),
      MenuPosition.HorizontalPosition(s.endToAnchorEnd, anchorBounds, windowSize, menuWidth, dir),
      MenuPosition.HorizontalPosition(WindowStrategyX(s, anchorBounds, windowSize), anchorBounds, windowSize, menuWidth, dir) ]
  }

  function YCandidates(s: Strategies, anchorBounds: IntRect, windowSize: IntSize, menuHeight: int): seq<int>
  {
    [ MenuPosition.VerticalPosition(s.topToAnchorBottom, anchorBounds, windowSize, menuHeight),
      MenuPosition.VerticalPosition(s.bottomToAnchorTop, anchorBounds, windowSize, menuHeight),
      MenuPosition.VerticalPosition(s.centerToAnchorTop, anchorBounds, windowSize, menuHeight),
      MenuPosition.VerticalPosition(AutoToWindowStrategy(s, anchorBounds, windowSize), anchorBounds, windowSize, menuHeight) ]
  }

  function ChosenX(p: DropdownMenuPositionProvider, anchorBounds: IntRect, windowSize: IntSize,
                   dir: LayoutDirection, menuSize: IntSize): int
  {
    FirstFitOrLast(XCandidates(StrategiesOf(p), anchorBounds, windowSize, dir, menuSize.width),
                   menuSize.width, 0, windowSize.width)
  }

  function ChosenY(p: DropdownMenuPositionProvider, anchorBounds: IntRect, windowSize: IntSize, menuSize: IntSize): int
  {
    var s := StrategiesOf(p);
    match p.anchor
    case Auto =>
      FirstFitOrLast(YCandidates(s, anchorBounds, windowSize, menuSize.height),
                     menuSize.height, p.verticalMargin, windowSize.height - p.verticalMargin)
    case TopToAnchorBottom => MenuPosition.VerticalPosition(s.topToAnchorBottom, anchorBounds, windowSize, menuSize.height)
    case BottomToAnchorTop => MenuPosition.VerticalPosition(s.bottomToAnchorTop, anchorBounds, windowSize, menuSize.height)
    case CenterToAnchorTop => MenuPosition.VerticalPosition(s.centerToAnchorTop, anchorBounds, windowSize, menuSize.height)
    case TopToWindowTop => MenuPosition.VerticalPosition(s.topToWindowTop, anchorBounds, windowSize, menuSize.height)
    case BottomToWindowBottom =>
      MenuPosition.VerticalPosition(s.bottomToWindowBottom, anchorBounds, windowSize, menuSize.height)
    case AutoToWindow =>
      MenuPosition.VerticalPosition(AutoToWindowStrategy(s, anchorBounds, windowSize), anchorBounds, windowSize, menuSize.height)
  }

  /** `DropdownMenuPositionProvider.calculatePosition`. The callback receives
      the anchor's bounds unchanged and the menu's bounds: the measured
      content size placed at the returned offset. */
  function CalculatePosition(p: DropdownMenuPositionProvider, anchorBounds: IntRect, windowSize: IntSize,
                             dir: LayoutDirection, popupContentSize: IntSize): (r: PositionResult)
    ensures r.anchorBounds == anchorBounds
    ensures r.menuBounds.left == r.menuOffset.x && r.menuBounds.top == r.menuOffset.y
    ensures r.menuBounds.Width() == popupContentSize.width && r.menuBounds.Height() == popupContentSize.height
  {
    var menuOffset := IntOffset(ChosenX(p, anchorBounds, windowSize, dir, popupContentSize),
                                ChosenY(p, anchorBounds, windowSize, popupContentSize));
    PositionResult(menuOffset, anchorBounds, RectAt(menuOffset, popupContentSize))
  }

  // ---------------------------------------------------------------------
  // Horizontal placement

  /** The chosen x is start-to-anchor-start if that keeps the menu inside the
      window, else end-to-anchor-end if that does, else the window-edge
      strategy (left or right by the anchor's centre, margin 0), whether or
      not it fits. */
  lemma ChosenXIsFirstFit(p: DropdownMenuPositionProvider, anchorBounds: IntRect, windowSize: IntSize,
                          dir: LayoutDirection, menuSize: IntSize)
    ensures var w, W := menuSize.width, windowSize.width;
            var a := MenuPosition.HorizontalPosition(MenuPosition.StartToAnchorStart(p.contentOffset.x),
                                                     anchorBounds, windowSize, w, dir);
            var b := MenuPosition.HorizontalPosition(MenuPosition.EndToAnchorEnd(p.contentOffset.x),
                                                     anchorBounds, windowSize, w, dir);
            var c := MenuPosition.HorizontalPosition(
                       if anchorBounds.Center().x < TruncDiv(W, 2) then MenuPosition.LeftToWindowLeft(0)
                       else MenuPosition.RightToWindowRight(0),
                       anchorBounds, windowSize, w, dir);
            CalculatePosition(p, anchorBounds, windowSize, dir, menuSize).menuOffset.x
            == if a >= 0 && a + w <= W then a
               else if b >= 0 && b + w <= W then b
               else c
  {
    var w, W := menuSize.width, windowSize.width;
    var cands := XCandidates(StrategiesOf(p), anchorBounds, windowSize, dir, w);
    var k := FirstFitIndex(cands, w, 0, W);
    if Fits(cands[0], w, 0, W) {
      assert k == 0;
    } else if Fits(cands[1], w, 0, W) {
      assert k == 1;
    } else {
      assert k == 2;
    }
  }

  /** A menu no wider than the window is always placed inside it: the
      zero-margin window-edge candidate fits whenever nothing before it does. */
  lemma XWithinWindow(p: DropdownMenuPositionProvider, anchorBounds: IntRect, windowSize: IntSize,
                      dir: LayoutDirection, menuSize: IntSize)
    requires menuSize.width <= windowSize.width
    ensures var x := CalculatePosition(p, anchorBounds, windowSize, dir, menuSize).menuOffset.x;
            0 <= x <= windowSize.width - menuSize.width
  {
    var s := StrategiesOf(p);
    var cands := XCandidates(s, anchorBounds, windowSize, dir, menuSize.width);
    var k := FirstFitIndex(cands, menuSize.width, 0, windowSize.width);
    assert Fits(cands[2], menuSize.width, 0, windowSize.width) by {
      var h := WindowStrategyX(s, anchorBounds, windowSize);
      assert h.HorizontalWindowMargin? && h.margin == 0;
    }
  }

  /** A menu wider than the window fits nowhere, so it is centred over the
      whole window and sticks out on both sides, or on the right only when it
      is one pixel too wide (the source keeps this last resort). */
  lemma WideMenuCentredOverWindow(p: DropdownMenuPositionProvider, anchorBounds: IntRect, windowSize: IntSize,
                                  dir: LayoutDirection, menuSize: IntSize)
    requires menuSize.width > windowSize.width
    ensures var x := CalculatePosition(p, anchorBounds, windowSize, dir, menuSize).menuOffset.x;
            0 <= 2 * x - (windowSize.width - menuSize.width) <= 1 && x <= 0
  {
    var s := StrategiesOf(p);
    var cands := XCandidates(s, anchorBounds, windowSize, dir, menuSize.width);
    var k := FirstFitIndex(cands, menuSize.width, 0, windowSize.width);
    assert k == 2;
  }

  /** The anchor setting and the vertical margin never change x. */
  lemma AnchorSettingDoesNotAffectX(p1: DropdownMenuPositionProvider, p2: DropdownMenuPositionProvider,
                                    anchorBounds: IntRect, windowSize: IntSize, dir: LayoutDirection, menuSize: IntSize)
    requires p1.contentOffset == p2.contentOffset
    ensures CalculatePosition(p1, anchorBounds, windowSize, dir, menuSize).menuOffset.x
            == CalculatePosition(p2, anchorBounds, windowSize, dir, menuSize).menuOffset.x
  {
  }

  // ---------------------------------------------------------------------
  // Vertical placement

  /** With `Auto`, the chosen y is the first of top-to-anchor-bottom,
      bottom-to-anchor-top and centre-to-anchor-top that keeps the vertical
      margin at both ends, else the window-edge strategy (top or bottom by
      the anchor's centre, with the vertical margin), whether or not it does. */
  lemma AutoYIsFirstFit(p: DropdownMenuPositionProvider, anchorBounds: IntRect, windowSize: IntSize,
                        dir: LayoutDirection, menuSize: IntSize)
    requires p.anchor == Auto
    ensures var h, H, m, off := menuSize.height, windowSize.height, p.verticalMargin, p.contentOffset.y;
            var a := MenuPosition.VerticalPosition(MenuPosition.TopToAnchorBottom(off), anchorBounds, windowSize, h);
            var b := MenuPosition.VerticalPosition(MenuPosition.BottomToAnchorTop(off), anchorBounds, windowSize, h);
            var c := MenuPosition.VerticalPosition(MenuPosition.CenterToAnchorTop(off), anchorBounds, windowSize, h);
            var d := MenuPosition.VerticalPosition(
                       if anchorBounds.Center().y < TruncDiv(H, 2) then MenuPosition.TopToWindowTop(m)
                       else MenuPosition.BottomToWindowBottom(m),
                       anchorBounds, windowSize, h);
            CalculatePosition(p, anchorBounds, windowSize, dir, menuSize).menuOffset.y
            == if a >= m && a + h <= H - m then a
               else if b >= m && b + h <= H - m then b
               else if c >= m && c + h <= H - m then c
               else d
  {
    var h, m := menuSize.height, p.verticalMargin;
    var hi := windowSize.height - m;
    var cands := YCandidates(StrategiesOf(p), anchorBounds, windowSize, h);
    var k := FirstFitIndex(cands, h, m, hi);
    if Fits(cands[0], h, m, hi) {
      assert k == 0;
    } else if Fits(cands[1], h, m, hi) {
      assert k == 1;
    } else if Fits(cands[2], h, m, hi) {
      assert k == 2;
    } else {
      assert k == 3;
    }
  }

  /** With `Auto`, a menu that fits strictly between the vertical margins is
      always placed between them: the window-edge candidate is clamped into
      the margins whenever nothing before it fits. */
  lemma AutoYWithinMargins(p: DropdownMenuPositionProvider, anchorBounds: IntRect, windowSize: IntSize,
                           dir: LayoutDirection, menuSize: IntSize)
    requires p.anchor == Auto
    requires menuSize.height < windowSize.height - 2 * p.verticalMargin
    ensures var y := CalculatePosition(p, anchorBounds, windowSize, dir, menuSize).menuOffset.y;
            p.verticalMargin <= y && y + menuSize.height <= windowSize.height - p.verticalMargin
  {
    var s := StrategiesOf(p);
    var m := p.verticalMargin;
    var cands := YCandidates(s, anchorBounds, windowSize, menuSize.height);
    var k := FirstFitIndex(cands, menuSize.height, m, windowSize.height - m);
    assert Fits(cands[3], menuSize.height, m, windowSize.height - m) by {
      var v := AutoToWindowStrategy(s, anchorBounds, windowSize);
      assert v.VerticalWindowMargin? && v.margin == m;
    }
  }

  /** Every setting other than `Auto` applies exactly one strategy, with no
      fit test: `AutoToWindow` the top or bottom window strategy by the
      anchor's centre, the others the strategy they name. */
  lemma ExplicitAnchorY(p: DropdownMenuPositionProvider, anchorBounds: IntRect, windowSize: IntSize,
                        dir: LayoutDirection, menuSize: IntSize)
    ensures var y := CalculatePosition(p, anchorBounds, windowSize, dir, menuSize).menuOffset.y;
            var h, H, m, off := menuSize.height, windowSize.height, p.verticalMargin, p.contentOffset.y;
            var pos := (v: MenuPosition.Vertical) => MenuPosition.VerticalPosition(v, anchorBounds, windowSize, h);
            && (p.anchor == TopToAnchorBottom ==> y == pos(MenuPosition.TopToAnchorBottom(off)))
            && (p.anchor == BottomToAnchorTop ==> y == pos(MenuPosition.BottomToAnchorTop(off)))
            && (p.anchor == CenterToAnchorTop ==> y == pos(MenuPosition.CenterToAnchorTop(off)))
            && (p.anchor == TopToWindowTop ==> y == pos(MenuPosition.TopToWindowTop(m)))
            && (p.anchor == BottomToWindowBottom ==> y == pos(MenuPosition.BottomToWindowBottom(m)))
            && (p.anchor == AutoToWindow ==>
                  y == pos(if anchorBounds.Center().y < TruncDiv(H, 2) then MenuPosition.TopToWindowTop(m)
                           else MenuPosition.BottomToWindowBottom(m)))
  {
  }

  // ---------------------------------------------------------------------
  // Placement feeding the pivot

  /** The rectangles a placement reports give a pivot inside the unit
      square whenever the measured content size is non-negative. */
  lemma PlacementPivotInUnitSquare(p: DropdownMenuPositionProvider, anchorBounds: IntRect, windowSize: IntSize,
                                   dir: LayoutDirection, popupContentSize: IntSize)
    requires popupContentSize.width >= 0 && popupContentSize.height >= 0
    ensures var r := CalculatePosition(p, anchorBounds, windowSize, dir, popupContentSize);
            var o := TransformOrigin.CalculateTransformOrigin(r.anchorBounds, r.menuBounds);
            0.0 <= o.pivotFractionX <= 1.0 && 0.0 <= o.pivotFractionY <= 1.0
  {
    var r := CalculatePosition(p, anchorBounds, windowSize, dir, popupContentSize);
    TransformOrigin.TransformOriginInUnitSquare(r.anchorBounds, r.menuBounds);
  }

  // ---------------------------------------------------------------------
  // A worked placement

  /** Anchor (40, 100, 140, 120) in a 360 by 640 window, a 200 by 300 menu,
      `Auto`, no offset, a 48-pixel margin, left-to-right: the menu opens
      below the anchor, start-aligned, at (40, 120). */
  lemma BelowAnchorScenario()
    ensures var p := DropdownMenuPositionProvider(IntOffset(0, 0), Auto, 48);
            var r := CalculatePosition(p, IntRect(40, 100, 140, 120), IntSize(360, 640), Ltr, IntSize(200, 300));
            r.menuOffset == IntOffset(40, 120) && r.menuBounds == IntRect(40, 120, 240, 420)
  {
    BelowAnchorScenarioX();
    BelowAnchorScenarioY();
  }

  /** Its x: start-to-anchor-start gives 40, and [40, 240] lies in [0, 360]. */
  lemma BelowAnchorScenarioX()
    ensures ChosenX(DropdownMenuPositionProvider(IntOffset(0, 0), Auto, 48), IntRect(40, 100, 140, 120),
                    IntSize(360, 640), Ltr, IntSize(200, 300)) == 40
  {
  }

  /** Its y: top-to-anchor-bottom gives 120, and [120, 420] lies in [48, 592]. */
  lemma BelowAnchorScenarioY()
    ensures ChosenY(DropdownMenuPositionProvider(IntOffset(0, 0), Auto, 48), IntRect(40, 100, 140, 120),
                    IntSize(360, 640), IntSize(200, 300)) == 120
  {
  }
}
