/**
 * The collaborators a text label edits through: a model element whose
 * string attributes are looked up by name, and the undo manager whose
 * transaction boundaries bracket every write.
 */
module Uml {
  import opened Optional

  /** A model element; an attribute that was never set reads as None. */
  class Element {
    var attrs: map<string, Option<string>>

    constructor (attrs0: map<string, Option<string>>)
      ensures attrs == attrs0
    {
      attrs := attrs0;
    }

    /** getattr(element, attr). */
    function Get(attr: string): Option<string>
      reads this
    {
      if attr in attrs then attrs[attr] else None
    }

    /** setattr(element, attr, value). */
    method Set(attr: string, value: Option<string>)
      modifies this
      ensures attrs == old(attrs)[attr := value]
      ensures Get(attr) == value
      ensures forall a :: a != attr ==> Get(a) == old(Get(a))
    {
      attrs := attrs[attr := value];
    }
  }

  /** What the undo manager sees: transaction boundaries and the writes between them. */
  datatype UndoEvent = Begin | Write(attr: string, value: Option<string>) | Commit

  class UndoManager {
    var trace: seq<UndoEvent>

    constructor ()
      ensures trace == []
    {
      trace := [];
    }

    method BeginTransaction()
      modifies this
      ensures trace == old(trace) + [Begin]
    {
      trace := trace + [Begin];
    }

    method CommitTransaction()
      modifies this
      ensures trace == old(trace) + [Commit]
    {
      trace := trace + [Commit];
    }

    /** Records an attribute write made inside the open transaction. */
    method Record(attr: string, value: Option<string>)
      modifies this
      ensures trace == old(trace) + [Write(attr, value)]
    {
      trace := trace + [Write(attr, value)];
    }
  }

  /** A trace in which every write sits inside a Begin .. Commit pair. */
  predicate Bracketed(t: seq<UndoEvent>)
    decreases |t|
  {
    t == [] || (|t| >= 3 && t[0] == Begin && t[1].Write? && t[2] == Commit && Bracketed(t[3..]))
  }

  /** Appending one bracketed write keeps a trace bracketed. */
  lemma {:induction false} BracketedAppend(t: seq<UndoEvent>, attr: string, value: Option<string>)
    requires Bracketed(t)
    ensures Bracketed(t + [Begin, Write(attr, value), Commit])
    decreases |t|
  {
    var u := [Begin, Write(attr, value), Commit];
    if t == [] {
      assert u[3..] == [];
    } else {
      assert (t + u)[3..] == t[3..] + u;
      BracketedAppend(t[3..], attr, value);
    }
  }
}
