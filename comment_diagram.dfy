/**
 * The diagram the comment-line scenarios drive, as an object whose fields
 * the connect, disconnect and unlink operations update in place. Each
 * method is proved to leave the diagram in the state the matching
 * transition of CommentConnection computes from the state before.
 */
module CommentDiagram {
  import opened Optional
  import opened CommentConnection

  class Diagram {
    var kind: map<ItemId, ItemKind>
    var subject: map<ItemId, ElementId>
    var connectedTo: map<HandleRef, ItemId>
    var connectionData: map<HandleRef, ConnectionData>
    var annotated: set<Pair>
    var owned: set<Pair>
    var nextItem: ItemId
    var nextElement: ElementId

    /** The diagram and its model elements as a value. */
    function Model(): State
      reads this
    {
      State(kind, subject, connectedTo, connectionData, annotated, owned, nextItem, nextElement)
    }

    /** An empty diagram over an empty model. */
    constructor ()
      ensures Model() == Empty()
    {
      kind, subject, connectedTo, connectionData := map[], map[], map[], map[];
      annotated, owned := {}, {};
      nextItem, nextElement := 0, 0;
    }

    /** self.create(kind): adds an item, with a new subject when it is a box. */
    method Create(k: ItemKind) returns (id: ItemId)
      requires Valid(Model())
      modifies this
      ensures (id, Model()) == CommentConnection.Create(old(Model()), k)
    {
      id := nextItem;
      kind := kind[id := k];
      nextItem := nextItem + 1;
      if !k.IsLine() {
        subject := subject[id := nextElement];
        nextElement := nextElement + 1;
      }
    }

    /** Disconnects a comment-line handle: the annotation goes first, then the handle is cleared. */
    method DisconnectCommentLine(line: ItemId, end: End)
      requires IsCommentLine(Model(), line)
      modifies this
      ensures Model() == CommentConnection.DisconnectCommentLine(old(Model()), line, end)
    {
      var h := HandleRef(line, end);
      if h !in connectedTo {
        return;
      }
      var a := Annotation(Model(), line);
      if a.Some? {
        annotated := annotated - {a.value};
        owned := owned - {Flip(a.value)};
        assert Flipped({a.value}) == {Flip(a.value)} by { assert Flip(a.value) in Flipped({a.value}); }
      } else {
        assert Flipped({}) == {};
      }
      connectedTo := connectedTo - {h};
      connectionData := connectionData - {h};
    }

    /** Connects a comment-line handle when glue allows it, moving it off any previous target. */
    method ConnectCommentLine(line: ItemId, end: End, target: ItemId, port: nat) returns (ok: bool)
      requires IsCommentLine(Model(), line)
      modifies this
      ensures (ok, Model()) == CommentConnection.ConnectCommentLine(old(Model()), line, end, target, port)
    {
      ok := GlueCommentLine(Model(), line, end, target);
      if !ok {
        return;
      }
      DisconnectCommentLine(line, end);
      var h := HandleRef(line, end);
      connectedTo := connectedTo[h := target];
      connectionData := connectionData[h := ConnectionData(port)];
      LinkForm(Model(), line);
      var a := Annotation(Model(), line);
      if a.Some? {
        annotated := annotated + {a.value};
        owned := owned + {Flip(a.value)};
      }
    }

    /** Connects a free relationship handle to an element box; both ends on boxes give it a new subject. */
    method ConnectRelationship(rel: ItemId, end: End, target: ItemId, port: nat) returns (ok: bool)
      requires Valid(Model()) && rel in Model().kind && Model().kind[rel] == Relationship
      requires HandleRef(rel, end) !in Model().connectedTo
      modifies this
      ensures (ok, Model()) == CommentConnection.ConnectRelationship(old(Model()), rel, end, target, port)
    {
      ghost var s := Model();
      ConnectRelationshipSteps(s, rel, end, target, port);
      ok := GlueRelationship(Model(), target);
      if !ok {
        return;
      }
      var h := HandleRef(rel, end);
      connectedTo := connectedTo[h := target];
      connectionData := connectionData[h := ConnectionData(port)];
      ghost var s1 := Model();
      assert s1 == s.(connectedTo := s.connectedTo[h := target], connectionData := s.connectionData[h := ConnectionData(port)]);
      if EndsOnElements(Model(), rel) {
        subject := subject[rel := nextElement];
        nextElement := nextElement + 1;
        assert Model() == s1.(subject := s.subject[rel := s.nextElement], nextElement := s.nextElement + 1);
      }
    }

    /**
     * item.unlink(): disconnects every comment-line handle that rests on x
     * or belongs to x, then clears x's own relationship handles and removes
     * x with its subject.
     */
    method Unlink(x: ItemId)
      requires x in Model().kind && OnlyCommentLinesOn(Model(), x)
      modifies this
      ensures Model() == CommentConnection.Unlink(old(Model()), x)
    {
      ghost var s0 := Model();
      var all := Detached(Model(), x);
      DisconnectCommentHandles(x);
      ghost var c := Model();
      connectedTo := connectedTo - all;
      connectionData := connectionData - all;
      kind := kind - {x};
      subject := subject - {x};
      UnlinkFinish(s0, x, c);
    }

    /** Disconnects, one at a time, the comment-line handles that unlinking x detaches. */
    method DisconnectCommentHandles(x: ItemId)
      modifies this
      ensures Unlinking(old(Model()), CommentHandles(old(Model()), x), Model())
    {
      ghost var s0 := Model();
      var todo := CommentHandles(Model(), x);
      ghost var done: set<HandleRef> := {};
      assert DroppedBy(s0, done) == {};
      while todo != {}
        invariant todo !! done && todo + done == CommentHandles(s0, x)
        invariant Unlinking(s0, done, Model())
        decreases todo
      {
        var h :| h in todo;
        UnlinkStep(s0, x, Model(), done, h);
        DisconnectCommentLine(h.line, h.end);
        todo := todo - {h};
        done := done + {h};
      }
    }
  }

  /** The steps ConnectRelationship takes, one field at a time. */
  lemma ConnectRelationshipSteps(s: State, rel: ItemId, end: End, target: ItemId, port: nat)
    requires Valid(s) && rel in s.kind && s.kind[rel] == Relationship
    requires HandleRef(rel, end) !in s.connectedTo
    ensures var h := HandleRef(rel, end);
      var s1 := s.(connectedTo := s.connectedTo[h := target], connectionData := s.connectionData[h := ConnectionData(port)]);
      CommentConnection.ConnectRelationship(s, rel, end, target, port) ==
        if !GlueRelationship(s, target) then (false, s)
        else if EndsOnElements(s1, rel) then (true, s1.(subject := s.subject[rel := s.nextElement], nextElement := s.nextElement + 1))
        else (true, s1)
  {
  }

  /** The comment-line handles that unlinking x detaches. */
  function CommentHandles(s: State, x: ItemId): set<HandleRef>
  {
    set h | h in Detached(s, x) && IsCommentLine(s, h.line)
  }

  /**
   * The diagram part-way through unlinking from s0: exactly the handles in
   * done are cleared and exactly the annotations of their lines are gone.
   */
  ghost predicate Unlinking(s0: State, done: set<HandleRef>, c: State)
  {
    && c.kind == s0.kind && c.subject == s0.subject
    && c.nextItem == s0.nextItem && c.nextElement == s0.nextElement
    && c.connectedTo == s0.connectedTo - done
    && c.connectionData == s0.connectionData - done
    && c.annotated == s0.annotated - DroppedBy(s0, done)
    && c.owned == s0.owned - Flipped(DroppedBy(s0, done))
  }

  /**
   * One step of unlinking: a comment-line handle still connected drops
   * exactly the annotations its line adds to those already dropped.
   */
  lemma UnlinkStep(s0: State, x: ItemId, c: State, done: set<HandleRef>, h: HandleRef)
    requires Unlinking(s0, done, c)
    requires done <= CommentHandles(s0, x) && h in CommentHandles(s0, x) && h !in done
    ensures IsCommentLine(c, h.line)
    ensures Unlinking(s0, done + {h}, CommentConnection.DisconnectCommentLine(c, h.line, h.end))
  {
    var a := AnnotationSet(c, h.line);
    StepDrops(s0, x, c, done, h);
    FlippedUnion(DroppedBy(s0, done), a);
    assert h in c.connectedTo;
    var r := CommentConnection.DisconnectCommentLine(c, h.line, h.end);
    assert r.connectedTo == s0.connectedTo - (done + {h});
    assert r.connectionData == s0.connectionData - (done + {h});
  }

  /** The annotation a still-connected handle's line implies is the one it adds to those already dropped. */
  lemma StepDrops(s0: State, x: ItemId, c: State, done: set<HandleRef>, h: HandleRef)
    requires Unlinking(s0, done, c)
    requires done <= CommentHandles(s0, x) && h in CommentHandles(s0, x) && h !in done
    ensures DroppedBy(s0, done) + AnnotationSet(c, h.line) == DroppedBy(s0, done + {h})
  {
    DroppedByStep(s0, done, h);
    var o := HandleRef(h.line, h.end.Other());
    if o in done {
      FreeEndNoAnnotation(c, h.line, o.end);
      if Annotation(s0, h.line).Some? {
        assert Annotation(s0, o.line).value in DroppedBy(s0, done);
      }
    } else {
      assert Target(c, h) == Target(s0, h) && Target(c, o) == Target(s0, o);
      if h.end == Head {
        assert Annotation(c, h.line) == Annotation(s0, h.line);
      } else {
        assert Annotation(c, h.line) == Annotation(s0, h.line);
      }
    }
  }

  /** Once every comment-line handle is cleared, removing x and its own handles completes item.unlink(). */
  lemma UnlinkFinish(s0: State, x: ItemId, c: State)
    requires x in s0.kind && OnlyCommentLinesOn(s0, x)
    requires Unlinking(s0, CommentHandles(s0, x), c)
    ensures c.(kind := c.kind - {x}, subject := c.subject - {x},
               connectedTo := c.connectedTo - Detached(s0, x),
               connectionData := c.connectionData - Detached(s0, x)) == CommentConnection.Unlink(s0, x)
  {
    assert DroppedBy(s0, CommentHandles(s0, x)) == Dropped(s0, x);
  }
}
