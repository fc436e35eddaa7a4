# Anchored dropdown menu: placement engine and scale pivot

This project models the geometry core of an anchored dropdown menu for
Jetpack Compose. It covers two functions of integer geometry:

- **Placement** (`DropdownMenuPositionProvider.calculatePosition`). It takes
  the anchor's bounds, the window's size, the layout direction and the
  menu's measured size, and returns the menu's top-left offset.
  - Horizontally it tries start-to-anchor-start, then end-to-anchor-end,
    then a zero-margin window-edge strategy. It keeps the first candidate
    whose whole span lies in the window, or the last one if none does.
  - Vertically the `DropdownMenuAnchor` setting decides. `Auto` runs a
    four-candidate chain with a vertical-margin test. Every other setting
    applies one strategy with no test.
  - The placement also reports the anchor's bounds and the menu's final
    bounds. The source passes them to a callback.
- **Transform origin** (`calculateTransformOrigin`). For each axis it
  computes the fraction of the menu from which the open/close scale
  animation grows.

The nine position strategies (`MenuPosition.*`) are modelled as two closed
datatypes, one per axis. Each datatype has the two implementations the
source has: anchor-relative with an offset, and window-relative with a
margin. One dispatch function per axis evaluates them. Compose's
`Alignment.align` is modelled by its integer behaviour:

- start, left and top give 0;
- end, right and bottom give `space − size`;
- centre gives `floor((space − size + 1) / 2)`;
- start and end swap in right-to-left layouts.

`IntRect.center` and every `/ 2` in the source use Kotlin's truncating
division. The model writes that out as `Geometry.TruncDiv`.

Modules: `Geometry` (geometry.dfy), `Alignment` (alignment.dfy),
`MenuPosition` (menu_position.dfy), `TransformOrigin`
(transform_origin.dfy), `DropdownMenu` (dropdown_menu.dfy).

Two details of the code that are easy to get wrong:

- The overlap midpoint in the pivot is taken with truncating division, not
  floor division. The two differ for negative coordinates.
- An anchor and a menu with the same bounds do not always pivot at
  (0.5, 0.5). That holds for even widths and heights
  (`IdenticalEvenRectsPivotAtCenter`). A 3×3 rectangle at the origin pivots
  at (1/3, 1/3) (`IdenticalOddRectsPivotOffCenter`). At negative coordinates
  an odd extent can give 2/3 instead: the 3×3 rectangle (-3, -3, 0, 0)
  pivots at (2/3, 2/3) (`IdenticalOddRectsNegativePivotOffCenter`).

## Model

| member | source | states |
|---|---|---|
| `Geometry.TruncDiv` | anchored-dropdown-menu/src/main/kotlin/androidx/compose/material3/Other.kt:121-123 | Kotlin's `Int /`: the remainder is smaller than the divisor in magnitude and never has the sign opposite to the dividend, which determines the truncated quotient |
| `Geometry.TruncHalfBetween` | anchored-dropdown-menu/src/main/kotlin/androidx/compose/material3/Other.kt:121-123 | the truncated average of two ordered integers lies between them |
| `Geometry.RectAt` | anchored-dropdown-menu/src/main/kotlin/androidx/compose/material3/AnchoredDropdownMenu.kt:184 | `IntRect(offset, size)` has its top-left corner at the offset and the given width and height |
| `Alignment.CenterOffset` | anchored-dropdown-menu/src/main/kotlin/androidx/compose/material3/Other.kt:384-388 | centring leaves equal space on both sides, or one pixel more before than after (half rounded up) |
| `Alignment.AlignHorizontal` | anchored-dropdown-menu/src/main/kotlin/androidx/compose/material3/Other.kt:390-394 | an alignment that resolves to the left gives 0; one that resolves to the right puts the item's far edge on the space's far edge; a centring one centres it; start and end resolve by layout direction |
| `Alignment.AlignVertical` | anchored-dropdown-menu/src/main/kotlin/androidx/compose/material3/Other.kt:423-426 | top gives 0, bottom puts the item's bottom on the space's bottom, centre centres, independent of direction |
| `Alignment.AlignMirror` | anchored-dropdown-menu/src/main/kotlin/androidx/compose/material3/Other.kt:453-462 | aligning right-to-left equals aligning left-to-right with start and end swapped |
| `MenuPosition.CoerceIn` | anchored-dropdown-menu/src/main/kotlin/androidx/compose/material3/Other.kt:395 | `coerceIn` on a non-empty interval returns a value inside it: the input if it lies inside, otherwise the bound it passed |
| `MenuPosition.WindowMarginX` | anchored-dropdown-menu/src/main/kotlin/androidx/compose/material3/Other.kt:377-396 | oversized (`menuWidth >= width − 2·margin`): centred over the full window, margin ignored; otherwise inside `[margin, width − margin − menuWidth]`, so the clamp bounds are never inverted; with a non-negative margin, left alignment is exactly `margin` and right alignment ends exactly `margin` from the right edge |
| `MenuPosition.WindowMarginY` | anchored-dropdown-menu/src/main/kotlin/androidx/compose/material3/Other.kt:412-428 | the same on the vertical axis, with top and bottom |
| `MenuPosition.HorizontalPosition` | anchored-dropdown-menu/src/main/kotlin/androidx/compose/material3/Other.kt:238-245 | no contract of its own; dispatches to `AnchorOffsetX` or `WindowMarginX`; its behaviour per factory is stated by `StartToAnchorStartPosition`, `EndToAnchorEndPosition`, `WindowEdgeStrategies`, `FullWidthMenuAtZero`, `WindowStrategiesIgnoreAnchor`, `AnchorStrategiesIgnoreWindow` and `DirectionSymmetry` |
| `MenuPosition.VerticalPosition` | anchored-dropdown-menu/src/main/kotlin/androidx/compose/material3/Other.kt:223-229 | no contract of its own; dispatches to `AnchorOffsetY` or `WindowMarginY`; stated by `TopToAnchorBottomPosition`, `BottomToAnchorTopPosition`, `CenterToAnchorTopPosition`, `WindowEdgeStrategiesVertical`, `WindowStrategiesIgnoreAnchor` and `AnchorStrategiesIgnoreWindow` |
| `MenuPosition.AnchorOffsetX` | anchored-dropdown-menu/src/main/kotlin/androidx/compose/material3/Other.kt:447-465 | no contract of its own; anchor point minus menu point plus the direction-resolved offset; stated by `StartToAnchorStartPosition`, `EndToAnchorEndPosition`, `StartEndSwapUnderRtl` and `DirectionSymmetry` |
| `MenuPosition.AnchorOffsetY` | anchored-dropdown-menu/src/main/kotlin/androidx/compose/material3/Other.kt:478-492 | no contract of its own; anchor point minus menu point plus the offset; stated by `TopToAnchorBottomPosition`, `BottomToAnchorTopPosition` and `CenterToAnchorTopPosition` |
| `MenuPosition.StartToAnchorStart` | anchored-dropdown-menu/src/main/kotlin/androidx/compose/material3/Other.kt:254-259 | no contract of its own; menu start to anchor start with the offset; its position is stated by `StartToAnchorStartPosition` |
| `MenuPosition.EndToAnchorEnd` | anchored-dropdown-menu/src/main/kotlin/androidx/compose/material3/Other.kt:268-273 | no contract of its own; menu end to anchor end with the offset; its position is stated by `EndToAnchorEndPosition` |
| `MenuPosition.LeftToWindowLeft` | anchored-dropdown-menu/src/main/kotlin/androidx/compose/material3/Other.kt:282-286 | no contract of its own; absolute left within the window margin; its position is stated by `WindowEdgeStrategies` and `WindowMarginX` |
| `MenuPosition.RightToWindowRight` | anchored-dropdown-menu/src/main/kotlin/androidx/compose/material3/Other.kt:295-299 | no contract of its own; absolute right within the window margin; its position is stated by `WindowEdgeStrategies` and `WindowMarginX` |
| `MenuPosition.TopToAnchorBottom` | anchored-dropdown-menu/src/main/kotlin/androidx/compose/material3/Other.kt:305-310 | no contract of its own; menu top to anchor bottom with the offset; its position is stated by `TopToAnchorBottomPosition` |
| `MenuPosition.BottomToAnchorTop` | anchored-dropdown-menu/src/main/kotlin/androidx/compose/material3/Other.kt:316-321 | no contract of its own; menu bottom to anchor top with the offset; its position is stated by `BottomToAnchorTopPosition` |
| `MenuPosition.CenterToAnchorTop` | anchored-dropdown-menu/src/main/kotlin/androidx/compose/material3/Other.kt:327-332 | no contract of its own; menu centre to anchor top with the offset; its position is stated by `CenterToAnchorTopPosition` |
| `MenuPosition.TopToWindowTop` | anchored-dropdown-menu/src/main/kotlin/androidx/compose/material3/Other.kt:341-345 | no contract of its own; top within the window margin; its position is stated by `WindowEdgeStrategiesVertical` and `WindowMarginY` |
| `MenuPosition.BottomToWindowBottom` | anchored-dropdown-menu/src/main/kotlin/androidx/compose/material3/Other.kt:354-358 | no contract of its own; bottom within the window margin; its position is stated by `WindowEdgeStrategiesVertical` and `WindowMarginY` |
| `MenuPosition.StartToAnchorStartPosition` | anchored-dropdown-menu/src/main/kotlin/androidx/compose/material3/Other.kt:447-464 | start-to-anchor-start is `anchor.left + offset` left-to-right and `anchor.right − menuWidth − offset` right-to-left |
| `MenuPosition.EndToAnchorEndPosition` | anchored-dropdown-menu/src/main/kotlin/androidx/compose/material3/Other.kt:447-464 | end-to-anchor-end is `anchor.right − menuWidth + offset` left-to-right and `anchor.left − offset` right-to-left |
| `MenuPosition.TopToAnchorBottomPosition` | anchored-dropdown-menu/src/main/kotlin/androidx/compose/material3/Other.kt:478-491 | top-to-anchor-bottom is `anchor.bottom + offset` |
| `MenuPosition.BottomToAnchorTopPosition` | anchored-dropdown-menu/src/main/kotlin/androidx/compose/material3/Other.kt:478-491 | bottom-to-anchor-top is `anchor.top − menuHeight + offset` |
| `MenuPosition.CenterToAnchorTopPosition` | anchored-dropdown-menu/src/main/kotlin/androidx/compose/material3/Other.kt:478-491 | centre-to-anchor-top puts the menu's vertical centre (half rounded down the screen) on the anchor's top plus the offset |
| `MenuPosition.WindowEdgeStrategies` | anchored-dropdown-menu/src/main/kotlin/androidx/compose/material3/Other.kt:282-299 | with a non-negative margin and a menu that is not oversized, left-to-window-left is exactly `margin` and right-to-window-right is exactly `width − margin − menuWidth`; when oversized both give the same centred value |
| `MenuPosition.WindowEdgeStrategiesVertical` | anchored-dropdown-menu/src/main/kotlin/androidx/compose/material3/Other.kt:341-358 | the same for top-to-window-top and bottom-to-window-bottom |
| `MenuPosition.FullWidthMenuAtZero` | anchored-dropdown-menu/src/main/kotlin/androidx/compose/material3/Other.kt:383-388 | a menu exactly as wide as the window is placed at 0 by every window strategy, whatever its margin, negative ones included |
| `MenuPosition.WindowStrategiesIgnoreAnchor` | anchored-dropdown-menu/src/main/kotlin/androidx/compose/material3/Other.kt:377-428 | window-relative strategies give the same result for any two anchors |
| `MenuPosition.AnchorStrategiesIgnoreWindow` | anchored-dropdown-menu/src/main/kotlin/androidx/compose/material3/Other.kt:447-491 | anchor-relative strategies give the same result for any two window sizes |
| `MenuPosition.DirectionSymmetry` | anchored-dropdown-menu/src/main/kotlin/androidx/compose/material3/Other.kt:453-463 | a horizontal strategy right-to-left equals, left-to-right, its mirror with start and end swapped and the offset negated |
| `MenuPosition.StartEndSwapUnderRtl` | anchored-dropdown-menu/src/main/kotlin/androidx/compose/material3/Other.kt:254-273 | start-to-anchor-start right-to-left is end-to-anchor-end left-to-right with the offset negated, and the converse |
| `TransformOrigin.PivotFraction` | anchored-dropdown-menu/src/main/kotlin/androidx/compose/material3/Other.kt:116-125 | no contract of its own; one axis of the pivot; stated by `PivotBranchOrder`, `PivotFractionInUnitInterval`, `PivotInsideOverlap`, `HalfOfEvenExtent` and `OverlapCenterOnMenu` |
| `TransformOrigin.CalculateTransformOrigin` | anchored-dropdown-menu/src/main/kotlin/androidx/compose/material3/Other.kt:112-139 | no contract of its own; `PivotFraction` on each axis; stated by `PivotBranchOrder`, `TransformOriginInUnitSquare`, `IdenticalEvenRectsPivotAtCenter`, the two odd-rectangle lemmas and `DisjointAfterPivotAtOrigin` |
| `TransformOrigin.PivotBranchOrder` | anchored-dropdown-menu/src/main/kotlin/androidx/compose/material3/Other.kt:116-130 | per axis, in order: menu at or past the anchor's far edge gives 0, else menu ending at or before the anchor's near edge gives 1, else zero extent gives 0 |
| `TransformOrigin.OverlapCenterOnMenu` | anchored-dropdown-menu/src/main/kotlin/androidx/compose/material3/Other.kt:120-125 | in the overlap branch the truncated middle of the overlap lies on the menu |
| `TransformOrigin.PivotFractionInUnitInterval` | anchored-dropdown-menu/src/main/kotlin/androidx/compose/material3/Other.kt:116-126 | one axis's fraction is in [0, 1] on every branch for a menu whose far edge is not before its near edge |
| `TransformOrigin.TransformOriginInUnitSquare` | anchored-dropdown-menu/src/main/kotlin/androidx/compose/material3/Other.kt:112-139 | for a well-formed menu rectangle and any anchor, both pivot components are in [0, 1] |
| `TransformOrigin.PivotInsideOverlap` | anchored-dropdown-menu/src/main/kotlin/androidx/compose/material3/Other.kt:120-125 | in the overlap case the pivot, in pixels, is a point of the anchor–menu overlap within half a pixel of its exact middle |
| `TransformOrigin.HalfOfEvenExtent` | anchored-dropdown-menu/src/main/kotlin/androidx/compose/material3/Other.kt:120-125 | a segment of positive even length pivots over itself at exactly 1/2 |
| `TransformOrigin.IdenticalEvenRectsPivotAtCenter` | anchored-dropdown-menu/src/main/kotlin/androidx/compose/material3/Other.kt:112-139 | anchor and menu with the same bounds, both extents even and positive, give (0.5, 0.5) |
| `TransformOrigin.IdenticalOddRectsPivotOffCenter` | anchored-dropdown-menu/src/main/kotlin/androidx/compose/material3/Other.kt:112-139 | anchor and menu both (0, 0, 3, 3) give (1/3, 1/3) because the midpoint is truncated |
| `TransformOrigin.IdenticalOddRectsNegativePivotOffCenter` | anchored-dropdown-menu/src/main/kotlin/androidx/compose/material3/Other.kt:120-136 | anchor and menu both (-3, -3, 0, 0) give (2/3, 2/3), because truncation rounds the midpoint -1.5 toward zero |
| `TransformOrigin.DisjointAfterPivotAtOrigin` | anchored-dropdown-menu/src/main/kotlin/androidx/compose/material3/Other.kt:116-130 | anchor (0, 0, 10, 10) and menu (20, 20, 30, 30) give (0, 0) |
| `DropdownMenu.FirstFitIndex` | anchored-dropdown-menu/src/main/kotlin/androidx/compose/material3/AnchoredDropdownMenu.kt:139-141 | `fastFirstOrNull { fits } ?: last()`: the picked index is in range, every earlier candidate fails, and the picked one fits or is the last |
| `DropdownMenu.CalculatePosition` | anchored-dropdown-menu/src/main/kotlin/androidx/compose/material3/AnchoredDropdownMenu.kt:181-186 | the reported anchor bounds are the input's unchanged; the reported menu bounds start at the returned offset and have the content's size |
| `DropdownMenu.StrategiesOf` | anchored-dropdown-menu/src/main/kotlin/androidx/compose/material3/AnchoredDropdownMenu.kt:101-115 | no contract of its own; the nine strategies built from the content offset, margin 0 and the vertical margin; their use is stated by `ChosenXIsFirstFit`, `AutoYIsFirstFit` and `ExplicitAnchorY` |
| `DropdownMenu.ChosenX` | anchored-dropdown-menu/src/main/kotlin/androidx/compose/material3/AnchoredDropdownMenu.kt:123-141 | no contract of its own; first fit or last of the x candidates; stated by `ChosenXIsFirstFit`, `XWithinWindow`, `WideMenuCentredOverWindow` and `AnchorSettingDoesNotAffectX` |
| `DropdownMenu.ChosenY` | anchored-dropdown-menu/src/main/kotlin/androidx/compose/material3/AnchoredDropdownMenu.kt:143-179 | no contract of its own; the `Auto` first-fit chain or the one chosen strategy; stated by `AutoYIsFirstFit`, `AutoYWithinMargins` and `ExplicitAnchorY` |
| `DropdownMenu.ChosenXIsFirstFit` | anchored-dropdown-menu/src/main/kotlin/androidx/compose/material3/AnchoredDropdownMenu.kt:123-141 | x is start-to-anchor-start if its span fits `[0, width]`, else end-to-anchor-end if that fits, else the margin-0 window strategy (left if `anchor.center.x < width / 2`, right otherwise), fitting or not |
| `DropdownMenu.XWithinWindow` | anchored-dropdown-menu/src/main/kotlin/androidx/compose/material3/AnchoredDropdownMenu.kt:123-141 | when `menuWidth <= width`, the chosen x lies in `[0, width − menuWidth]` |
| `DropdownMenu.WideMenuCentredOverWindow` | anchored-dropdown-menu/src/main/kotlin/androidx/compose/material3/AnchoredDropdownMenu.kt:139-141 | a menu wider than the window gets the last-resort candidate: centred over the window, with x <= 0 |
| `DropdownMenu.AnchorSettingDoesNotAffectX` | anchored-dropdown-menu/src/main/kotlin/androidx/compose/material3/AnchoredDropdownMenu.kt:123-141 | providers with the same content offset choose the same x, whatever their anchor setting and vertical margin |
| `DropdownMenu.AutoYIsFirstFit` | anchored-dropdown-menu/src/main/kotlin/androidx/compose/material3/AnchoredDropdownMenu.kt:156-171 | with `Auto`, y is the first of top-to-anchor-bottom, bottom-to-anchor-top and centre-to-anchor-top satisfying `y >= margin && y + h <= height − margin`, else the window strategy (top if `anchor.center.y < height / 2`, bottom otherwise, with the vertical margin) |
| `DropdownMenu.AutoYWithinMargins` | anchored-dropdown-menu/src/main/kotlin/androidx/compose/material3/AnchoredDropdownMenu.kt:167-170 | with `Auto` and `menuHeight < height − 2·margin`, the chosen y always respects both vertical margins |
| `DropdownMenu.ExplicitAnchorY` | anchored-dropdown-menu/src/main/kotlin/androidx/compose/material3/AnchoredDropdownMenu.kt:173-178 | every other anchor setting gives exactly its one strategy's y with no fit test; `AutoToWindow` picks top or bottom by the anchor's centre |
| `DropdownMenu.PlacementPivotInUnitSquare` | anchored-dropdown-menu/src/main/kotlin/androidx/compose/material3/AnchoredDropdownMenu.kt:59-61 | the rectangles a placement reports, fed to `calculateTransformOrigin` as the menu does, give a pivot in the unit square whenever the content size is non-negative |
| `DropdownMenu.BelowAnchorScenario` | anchored-dropdown-menu/src/main/kotlin/androidx/compose/material3/AnchoredDropdownMenu.kt:117-187 | anchor (40, 100, 140, 120), window 360×640, menu 200×300, `Auto`, no offset, margin 48, left-to-right: offset (40, 120), menu bounds (40, 120, 240, 420) |
| `DropdownMenu.BelowAnchorScenarioX` | anchored-dropdown-menu/src/main/kotlin/androidx/compose/material3/AnchoredDropdownMenu.kt:123-141 | in that scenario the chosen x is 40 |
| `DropdownMenu.BelowAnchorScenarioY` | anchored-dropdown-menu/src/main/kotlin/androidx/compose/material3/AnchoredDropdownMenu.kt:156-171 | in that scenario the chosen y is 120 |

## Left out

- `DropdownMenuContent` (Other.kt:43-109): transition and animation wiring, with `Float` scale and alpha, that draws a surface. There is no geometry in it.
- The `AnchoredDropdownMenu` composable (AnchoredDropdownMenu.kt:37-78): `remember`, `Popup`, transition state and density lookup belong to the host framework. Its only link to the core is the callback: one placement feeds `calculateTransformOrigin`. The model exposes the callback's arguments in `PositionResult`.
- Dp-to-pixel conversion (`roundToPx`) is float density scaling. The provider takes its content offset and vertical margin already in pixels.
- Theme tokens and lookups (`MenuTokens`, colour, elevation and shape tokens, `fromToken`) map to foreign theme types and contain no logic.
- The animation durations and the default margin and padding in dp: configuration constants with no logic, not modelled.
- 32-bit `Int` overflow: every coordinate is an unbounded integer, so sums such as `anchor.left + offset` are assumed not to wrap.
- Float rounding: Compose computes alignment through `Float` and `roundToInt`; the model uses exact integer alignment, which agrees with it for coordinates small enough for a `Float` to hold exactly.
- CalculateTransformOrigin: the model's pivot is the exact quotient, while the source (Other.kt:124, :135) returns that quotient rounded to the nearest `Float` (1/3 becomes 0.33333334f). Rounding to nearest is monotone and 0, 1/2 and 1 are exact `Float`s, so the [0, 1] bound and the results 0, 1/2 and 1 proved here still hold for the program; the other exact values (1/3, 2/3) hold only up to that rounding.
- Kotlin's `coerceIn` throws when its lower bound exceeds its upper bound. The model states that precondition, and `WindowMarginX`/`WindowMarginY` show it always holds where the source calls it.
- The build configuration (build.gradle.kts).
