/** Compose's bias alignments, restricted to the values the dropdown menu
    uses, on integers. An alignment places an item of `size` pixels inside a
    `space` of pixels and returns the item's offset from the start of the
    space: bias -1 puts it at the start (offset 0), bias 1 at the end
    (offset `space - size`), bias 0 in the middle, rounding a half pixel
    toward positive infinity. Relative horizontal alignments swap start and
    end in right-to-left layouts; absolute ones and vertical ones do not. */
module Alignment {
  import opened Geometry

  /** `Alignment.Start`, `Alignment.CenterHorizontally`, `Alignment.End`,
      `AbsoluteAlignment.Left` and `AbsoluteAlignment.Right`. */
  datatype HorizontalAlignment = Start | CenterHorizontally | End | AbsoluteLeft | AbsoluteRight

  /** `Alignment.Top`, `Alignment.CenterVertically` and `Alignment.Bottom`. */
  datatype VerticalAlignment = Top | CenterVertically | Bottom

  /** Where an alignment puts the item once the layout direction is known. */
  datatype Placement = AtLeft | InMiddle | AtRight

  /** The absolute side a horizontal alignment stands for in a direction. */
  function Resolve(a: HorizontalAlignment, dir: LayoutDirection): Placement {
    match a
    case Start => if dir == Ltr then AtLeft else AtRight
    case End => if dir == Ltr then AtRight else AtLeft
    case CenterHorizontally => InMiddle
    case AbsoluteLeft => AtLeft
    case AbsoluteRight => AtRight
  }

  /** The alignment with the same meaning in the opposite direction. */
  function Mirror(a: HorizontalAlignment): HorizontalAlignment {
    match a
    case Start => End
    case End => Start
    case other => other
  }

  /** Half of the free space, rounded half toward positive infinity, as
      `(free / 2f).roundToInt()` gives it. An item of `size` placed there
      inside `space` (free = space - size) has equal margins on both sides,
      or a margin one pixel larger before it than after it. */
  function CenterOffset(free: int): (c: int)
    ensures 0 <= 2 * c - free <= 1
  {
    (free + 1) / 2
  }

  /** `Alignment.Horizontal.align(size, space, dir)`. */
  function AlignHorizontal(a: HorizontalAlignment, size: int, space: int, dir: LayoutDirection): (r: int)
    ensures Resolve(a, dir) == AtLeft ==> r == 0
    ensures Resolve(a, dir) == AtRight ==> r + size == space
    ensures Resolve(a, dir) == InMiddle ==> 0 <= 2 * r - (space - size) <= 1
  {
    match Resolve(a, dir)
    case AtLeft => 0
    case AtRight => space - size
    case InMiddle => CenterOffset(space - size)
  }

  /** `Alignment.Vertical.align(size, space)`: top, centre or bottom. */
  function AlignVertical(a: VerticalAlignment, size: int, space: int): (r: int)
    ensures a == Top ==> r == 0
    ensures a == Bottom ==> r + size == space
    ensures a == CenterVertically ==> 0 <= 2 * r - (space - size) <= 1
  {
    match a
    case Top => 0
    case Bottom => space - size
    case CenterVertically => CenterOffset(space - size)
  }

  /** Right-to-left alignment is left-to-right alignment with start and end
      swapped. */
  lemma AlignMirror(a: HorizontalAlignment, size: int, space: int)
    ensures AlignHorizontal(a, size, space, Rtl) == AlignHorizontal(Mirror(a), size, space, Ltr)
  {
  }
}
