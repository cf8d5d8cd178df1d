/**
 * TextElement of gaphor/diagram/nameditem.py: one text label of a diagram
 * item (a guard, a join specification, ...) that shows one attribute of its
 * subject through a '%s' pattern and writes edits back to that attribute.
 */
module TextElements {
  import opened Optional
  import opened TextPattern
  import opened Uml

  /** The shapes a text element yields for drawing. */
  datatype Shape = NameText | NameBorder

  /** get_size: the label's pixel size, at least 10 in each dimension. */
  function TextSize(pixelW: int, pixelH: int): (r: (int, int))
    ensures r.0 >= 10 && r.0 >= pixelW && (r.0 == 10 || r.0 == pixelW)
    ensures r.1 >= 10 && r.1 >= pixelH && (r.1 == 10 || r.1 == pixelH)
  {
    (if pixelW < 10 then 10 else pixelW, if pixelH < 10 then 10 else pixelH)
  }

  class TextElement {
    const attr: string
    const pattern: string
    const default: Option<string>
    var subject: Element?
    /** The text of the label shape. */
    var text: string
    var selected: bool
    var showBorder: bool

    constructor (attr0: string, pattern0: string, default0: Option<string>)
      requires SingleSlot(pattern0)
      ensures attr == attr0 && pattern == pattern0 && default == default0
      ensures subject == null && text == "" && !selected && showBorder
    {
      attr, pattern, default := attr0, pattern0, default0;
      subject := null;
      text := "";
      selected := false;
      showBorder := true;
    }

    /** set_text. */
    method SetText(txt: Option<string>)
      requires SingleSlot(pattern)
      modifies this`text
      ensures text == Displayed(pattern, default, txt)
      ensures text == "" <==> !Shown(txt, default)
    {
      if txt.Some? && txt.value != "" && txt != default {
        text := Prefix(pattern) + txt.value + Suffix(pattern);
      } else {
        text := "";
      }
    }

    /** on_shape_iter: the label when there is a subject, and its border while selected. */
    function Shapes(): (r: seq<Shape>)
      reads this
      ensures subject == null ==> r == []
      ensures subject != null ==> |r| >= 1 && r[0] == NameText
      ensures NameBorder in r <==> subject != null && selected && showBorder
      ensures |r| == (if subject == null then 0 else if selected && showBorder then 2 else 1)
    {
      if subject == null then []
      else if selected && showBorder then [NameText, NameBorder]
      else [NameText]
    }

    /** on_subject_notify: the label shows the subject's attribute, or nothing without a subject. */
    method OnSubjectNotify()
      requires SingleSlot(pattern)
      modifies this`text
      ensures subject != null ==> text == Displayed(pattern, default, subject.Get(attr))
      ensures subject == null ==> text == ""
    {
      if subject != null {
        SetText(subject.Get(attr));
      } else {
        SetText(Some(""));
      }
    }

    /**
     * on_editable_editing_done: with a subject, the typed text, stripped of the
     * pattern, is written to the subject's attribute inside one transaction;
     * without a subject nothing changes.
     */
    method EditingDone(newText: string, undo: UndoManager)
      requires SingleSlot(pattern)
      modifies subject, undo
      ensures subject == null ==> undo.trace == old(undo.trace)
      ensures subject != null ==> subject.attrs == old(subject.attrs)[attr := Some(Strip(pattern, newText))]
      ensures subject != null ==>
        undo.trace == old(undo.trace) + [Begin, Write(attr, Some(Strip(pattern, newText))), Commit]
      ensures Bracketed(old(undo.trace)) ==> Bracketed(undo.trace)
    {
      if subject != null {
        ghost var t0 := undo.trace;
        var t := newText;
        if pattern != "%s" {
          var s1, s2 := Prefix(pattern), Suffix(pattern);
          if s1 <= t && EndsWith(t, s2) {
            t := t[|s1|..];
            t := DropLast(t, |s2|);
          }
        }
        undo.BeginTransaction();
        subject.Set(attr, Some(t));
        undo.Record(attr, Some(t));
        undo.CommitTransaction();
        if Bracketed(t0) {
          BracketedAppend(t0, attr, Some(t));
        }
      }
    }
  }
}
