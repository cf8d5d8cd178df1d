/**
 * Where NamedItem.on_update (gaphor/diagram/nameditem.py) places the name
 * label of an item of size width x height, given the label's pixel size and
 * the item's alignment: inside the item, with a minimum item size, or
 * outside it, with bounds that enclose item and label.
 */
module LabelLayout {
  import opened Align

  /** A rectangle (x0, y0, x1, y1). */
  datatype Rect = Rect(x0: real, y0: real, x1: real, y1: real)

  predicate Contains(outer: Rect, inner: Rect)
  {
    outer.x0 <= inner.x0 && outer.y0 <= inner.y0 && inner.x1 <= outer.x1 && inner.y1 <= outer.y1
  }

  /** The label's x for a label of width w on an item of width width. */
  function LabelX(a: AlignValue, width: real, w: real): (x: real)
    ensures a.outside && a.align == Left ==> x + w + At(a.margin, MarginLeft) == 0.0
    ensures a.outside && a.align == Right ==> x - width == At(a.margin, MarginRight)
    ensures !a.outside && a.align == Left ==> x == At(a.margin, MarginLeft)
    ensures !a.outside && a.align == Right ==> width - (x + w) == At(a.margin, MarginRight)
    ensures a.align == Center ==> x - 0.0 == width - (x + w)
  {
    if a.outside then
      match a.align
      case Left => -w - At(a.margin, MarginLeft)
      case Center => (width - w) / 2.0
      case Right => width + At(a.margin, MarginRight)
    else
      match a.align
      case Left => At(a.margin, MarginLeft)
      case Center => (width - w) / 2.0
      case Right => width - w - At(a.margin, MarginRight)
  }

  /** The label's y for a label of height h on an item of height height. */
  function LabelY(a: AlignValue, height: real, h: real): (y: real)
    ensures a.outside && a.valign == Top ==> y + h + At(a.margin, MarginTop) == 0.0
    ensures a.outside && a.valign == Bottom ==> y - height == At(a.margin, MarginBottom)
    ensures !a.outside && a.valign == Top ==> y == At(a.margin, MarginTop)
    ensures !a.outside && a.valign == Bottom ==> height - (y + h) == At(a.margin, MarginBottom)
    ensures a.valign == Middle ==> y - 0.0 == height - (y + h)
  {
    if a.outside then
      match a.valign
      case Top => -h - At(a.margin, MarginTop)
      case Middle => (height - h) / 2.0
      case Bottom => height + At(a.margin, MarginBottom)
    else
      match a.valign
      case Top => At(a.margin, MarginTop)
      case Middle => (height - h) / 2.0
      case Bottom => height - h - At(a.margin, MarginBottom)
  }

  /** The minimum item size that leaves the margins around an inside label. */
  function MinSize(a: AlignValue, w: real, h: real): (r: (real, real))
    ensures r.0 - At(a.margin, MarginLeft) - At(a.margin, MarginRight) == w
    ensures r.1 - At(a.margin, MarginTop) - At(a.margin, MarginBottom) == h
  {
    (w + At(a.margin, MarginRight) + At(a.margin, MarginLeft),
     h + At(a.margin, MarginTop) + At(a.margin, MarginBottom))
  }

  /** The bounds of an item with an outside label at (x, y): the smallest rectangle holding both. */
  function OutsideBounds(width: real, height: real, x: real, y: real, w: real, h: real): (b: Rect)
    ensures Contains(b, Rect(0.0, 0.0, width, height)) && Contains(b, Rect(x, y, x + w, y + h))
    ensures forall r ::
      (Contains(r, Rect(0.0, 0.0, width, height)) && Contains(r, Rect(x, y, x + w, y + h))) ==> Contains(r, b)
  {
    Rect(if x < 0.0 then x else 0.0, if y < 0.0 then y else 0.0,
         if width > x + w then width else x + w, if height > y + h then height else y + h)
  }

  predicate NonNegativeMargins(a: AlignValue)
  {
    forall i :: At(a.margin, i) >= 0.0
  }

  /**
   * An inside label on an item at least its minimum size lies within the item,
   * keeping its margin on the side it is aligned to.
   */
  lemma InsideLabelFits(a: AlignValue, width: real, height: real, w: real, h: real)
    requires !a.outside && NonNegativeMargins(a)
    requires width >= MinSize(a, w, h).0 && height >= MinSize(a, w, h).1
    ensures var x := LabelX(a, width, w);
      0.0 <= x && x + w <= width &&
      (a.align != Center ==> At(a.margin, MarginLeft) <= x && x + w <= width - At(a.margin, MarginRight))
    ensures var y := LabelY(a, height, h);
      0.0 <= y && y + h <= height &&
      (a.valign != Middle ==> At(a.margin, MarginTop) <= y && y + h <= height - At(a.margin, MarginBottom))
  {
    assert At(a.margin, MarginLeft) >= 0.0 && At(a.margin, MarginRight) >= 0.0;
    assert At(a.margin, MarginTop) >= 0.0 && At(a.margin, MarginBottom) >= 0.0;
  }

  /** A centred label sits within the margins when the margins on both sides are equal. */
  lemma CenteredLabelKeepsEqualMargins(a: AlignValue, width: real, w: real)
    requires !a.outside && a.align == Center
    requires At(a.margin, MarginLeft) == At(a.margin, MarginRight)
    requires width >= MinSize(a, w, 0.0).0
    ensures At(a.margin, MarginLeft) <= LabelX(a, width, w)
    ensures LabelX(a, width, w) + w <= width - At(a.margin, MarginRight)
  {
  }

  /** An outside label aligned left or right does not overlap the item horizontally; top or bottom, vertically. */
  lemma OutsideLabelClearsItem(a: AlignValue, width: real, height: real, w: real, h: real)
    requires a.outside && NonNegativeMargins(a)
    ensures a.align == Left ==> LabelX(a, width, w) + w <= 0.0
    ensures a.align == Right ==> LabelX(a, width, w) >= width
    ensures a.valign == Top ==> LabelY(a, height, h) + h <= 0.0
    ensures a.valign == Bottom ==> LabelY(a, height, h) >= height
  {
    assert At(a.margin, MarginLeft) >= 0.0 && At(a.margin, MarginRight) >= 0.0;
    assert At(a.margin, MarginTop) >= 0.0 && At(a.margin, MarginBottom) >= 0.0;
  }
}
