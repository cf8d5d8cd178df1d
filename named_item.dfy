/**
 * NamedItem of gaphor/diagram/nameditem.py, with the Named behaviour it
 * mixes in: a box-like diagram item of default size 120 x 60 whose name
 * label is placed by its (shared) ItemAlign, and whose name edits are written
 * to the subject inside an undo transaction.
 */
module NamedItems {
  import opened Optional
  import opened Align
  import opened LabelLayout
  import opened Uml

  const DefaultWidth: real := 120.0
  const DefaultHeight: real := 60.0

  /** The margin a NamedItem gives its alignment when it is constructed. */
  function ConstructionMargin(outside: bool): (m: Margin)
    ensures outside ==> forall i :: At(m, i) == 2.0
    ensures !outside ==> At(m, MarginTop) == 15.0 && At(m, MarginBottom) == 15.0
    ensures !outside ==> At(m, MarginLeft) == 30.0 && At(m, MarginRight) == 30.0
  {
    if outside then [2.0, 2.0, 2.0, 2.0] else [15.0, 30.0, 15.0, 30.0]
  }

  class NamedItem {
    /** n_align: an alignment object shared by every item of the same kind. */
    const nAlign: ItemAlign
    var subject: Element?
    var width: real
    var height: real
    var minWidth: real
    var minHeight: real
    /** Position and maximum size of the name label (update_name). */
    var nameX: real
    var nameY: real
    var nameW: real
    var nameH: real
    var bounds: Rect
    /** The text of the name label. */
    var text: string

    /** __init__ and create_border: overwrites the shared margin, then takes the default size. */
    constructor (align: ItemAlign)
      modifies align
      ensures nAlign == align
      ensures align.margin == ConstructionMargin(old(align.outside))
      ensures align.align == old(align.align) && align.valign == old(align.valign)
      ensures align.outside == old(align.outside)
      ensures width == DefaultWidth && height == DefaultHeight
      ensures subject == null && text == ""
    {
      if align.outside {
        align.margin := [2.0, 2.0, 2.0, 2.0];
      } else {
        align.margin := [15.0, 30.0, 15.0, 30.0];
      }
      nAlign := align;
      subject := null;
      minWidth, minHeight := 0.0, 0.0;
      nameX, nameY, nameW, nameH := 0.0, 0.0, 0.0, 0.0;
      bounds := Rect(0.0, 0.0, 0.0, 0.0);
      text := "";
      width := DefaultWidth;
      height := DefaultHeight;
    }

    /**
     * on_update for a name label of pixel size labelW x labelH: places the
     * label; an inside label sets the minimum size, an outside one the bounds.
     */
    method OnUpdate(labelW: real, labelH: real)
      modifies this
      ensures width == old(width) && height == old(height)
      ensures subject == old(subject) && text == old(text)
      ensures nameX == LabelX(nAlign.Value(), width, labelW)
      ensures nameY == LabelY(nAlign.Value(), height, labelH)
      ensures nameW == labelW && nameH == labelH
      ensures !nAlign.outside ==> (minWidth, minHeight) == MinSize(nAlign.Value(), labelW, labelH)
      ensures !nAlign.outside ==> bounds == old(bounds)
      ensures nAlign.outside ==> minWidth == old(minWidth) && minHeight == old(minHeight)
      ensures nAlign.outside ==> bounds == OutsideBounds(width, height, nameX, nameY, labelW, labelH)
    {
      var a := nAlign.Value();
      var x := PlaceX(a, width, labelW);
      var y := PlaceY(a, height, labelH);
      if !a.outside {
        minWidth := labelW + At(a.margin, MarginRight) + At(a.margin, MarginLeft);
        minHeight := labelH + At(a.margin, MarginTop) + At(a.margin, MarginBottom);
      }
      nameX, nameY, nameW, nameH := x, y, labelW, labelH;
      if a.outside {
        var wx, hy := x + labelW, y + labelH;
        bounds := Rect(if x < 0.0 then x else 0.0, if y < 0.0 then y else 0.0,
                       if width > wx then width else wx, if height > hy then height else hy);
      }
      assert nAlign.Value() == a;
    }

    /** The horizontal branch of on_update. */
    static method PlaceX(a: AlignValue, width: real, w: real) returns (x: real)
      ensures x == LabelX(a, width, w)
    {
      if a.outside {
        match a.align {
          case Left => x := -w - At(a.margin, MarginLeft);
          case Center => x := (width - w) / 2.0;
          case Right => x := width + At(a.margin, MarginRight);
        }
      } else {
        match a.align {
          case Left => x := At(a.margin, MarginLeft);
          case Center => x := (width - w) / 2.0;
          case Right => x := width - w - At(a.margin, MarginRight);
        }
      }
    }

    /** The vertical branch of on_update. */
    static method PlaceY(a: AlignValue, height: real, h: real) returns (y: real)
      ensures y == LabelY(a, height, h)
    {
      if a.outside {
        match a.valign {
          case Top => y := -h - At(a.margin, MarginTop);
          case Middle => y := (height - h) / 2.0;
          case Bottom => y := height + At(a.margin, MarginBottom);
        }
      } else {
        match a.valign {
          case Top => y := At(a.margin, MarginTop);
          case Middle => y := (height - h) / 2.0;
          case Bottom => y := height - h - At(a.margin, MarginBottom);
        }
      }
    }

    /** Named.on_subject_notify: the label shows the subject's name, or nothing. */
    method OnSubjectNotify()
      modifies this`text
      ensures subject != null && subject.Get("name").Some? && subject.Get("name").value != "" ==>
        text == subject.Get("name").value
      ensures subject == null || subject.Get("name").None? || subject.Get("name") == Some("") ==> text == ""
    {
      if subject != null && subject.Get("name").Some? && subject.Get("name").value != "" {
        text := subject.Get("name").value;
      } else {
        text := "";
      }
    }

    /**
     * Named.on_editable_editing_done: writes the typed name to the subject,
     * inside one transaction, only when it differs from the current name.
     */
    method EditingDone(newText: string, undo: UndoManager)
      requires subject != null
      modifies subject, undo
      ensures subject.Get("name") == Some(newText)
      ensures old(subject.Get("name")) == Some(newText) ==>
        subject.attrs == old(subject.attrs) && undo.trace == old(undo.trace)
      ensures old(subject.Get("name")) != Some(newText) ==>
        subject.attrs == old(subject.attrs)["name" := Some(newText)] &&
        undo.trace == old(undo.trace) + [Begin, Write("name", Some(newText)), Commit]
      ensures Bracketed(old(undo.trace)) ==> Bracketed(undo.trace)
    {
      if Some(newText) != subject.Get("name") {
        ghost var t0 := undo.trace;
        undo.BeginTransaction();
        subject.Set("name", Some(newText));
        undo.Record("name", Some(newText));
        undo.CommitTransaction();
        if Bracketed(t0) {
          BracketedAppend(t0, "name", Some(newText));
        }
      }
    }
  }
}
