/**
 * The scenarios of gaphor/adapters/tests/test_comment.py, replayed on a
 * fresh Diagram. Each method returns what its test inspects, and its
 * contract states what the test asserts about those observations.
 */
module CommentScenarios {
  import opened Optional
  import opened CommentConnection
  import opened CommentDiagram

  /** A fresh diagram holding one comment item and one comment line. */
  method CommentAndLine() returns (d: Diagram, comment: ItemId, line: ItemId)
    ensures fresh(d) && Valid(d.Model())
    ensures comment in d.kind && d.kind[comment] == CommentBox && comment in d.subject
    ensures IsCommentLine(d.Model(), line) && line != comment
    ensures d.connectedTo == map[] && d.annotated == {}
  {
    d := new Diagram();
    CreateValid(d.Model(), CommentBox);
    comment := d.Create(CommentBox);
    CreateValid(d.Model(), CommentLine);
    line := d.Create(CommentLine);
  }

  /** test_commentline_annotated_element: one end on the comment links nothing yet. */
  method AnnotatedElementScenario() returns (headConnected: bool, annotated: set<ElementId>)
    ensures headConnected && annotated == {}
  {
    var d, comment, line := CommentAndLine();
    OneEndNoAnnotation(d.Model(), line, Head, comment, 0);
    var _ := d.ConnectCommentLine(line, Head, comment, 0);
    headConnected := HandleRef(line, Head) in d.connectedTo;
    annotated := AnnotatedElement(d.Model(), d.subject[comment]);
  }

  /** test_commentline_same_comment_glue: the tail may not glue to the comment the head rests on. */
  method SameCommentGlueScenario() returns (glued: bool)
    ensures !glued
  {
    var d, comment, line := CommentAndLine();
    var _ := d.ConnectCommentLine(line, Head, comment, 0);
    glued := GlueCommentLine(d.Model(), line, Tail, comment);
  }

  /** A fresh diagram holding a comment item, a comment line and an element box (an actor or a class). */
  method CommentLineAndElement() returns (d: Diagram, comment: ItemId, line: ItemId, elem: ItemId)
    ensures fresh(d) && Valid(d.Model())
    ensures comment in d.kind && d.kind[comment] == CommentBox && comment in d.subject
    ensures elem in d.kind && d.kind[elem] == ElementBox && elem in d.subject
    ensures IsCommentLine(d.Model(), line)
    ensures comment != line && line != elem && comment != elem && d.subject[comment] != d.subject[elem]
    ensures d.connectedTo == map[] && d.annotated == {}
  {
    d, comment, line := CommentAndLine();
    CreateValid(d.Model(), ElementBox);
    elem := d.Create(ElementBox);
  }

  /** Both ends of the line connected: head to the comment, tail to the element. */
  method LinkCommentToElement(d: Diagram, comment: ItemId, line: ItemId, elem: ItemId)
    requires Valid(d.Model())
    requires comment in d.kind && d.kind[comment] == CommentBox && comment in d.subject
    requires elem in d.kind && elem in d.subject && IsCommentLine(d.Model(), line)
    requires comment != line && line != elem && comment != elem
    requires HandleRef(line, Head) !in d.connectedTo && HandleRef(line, Tail) !in d.connectedTo
    modifies d
    ensures Valid(d.Model())
    ensures d.kind == old(d.kind) && d.subject == old(d.subject)
    ensures d.connectedTo == old(d.connectedTo)[HandleRef(line, Head) := comment][HandleRef(line, Tail) := elem]
    ensures d.annotated == old(d.annotated) + {(d.subject[comment], d.subject[elem])}
  {
    var s := d.Model();
    ConnectValid(s, line, Head, comment, 0);
    OneEndNoAnnotation(s, line, Head, comment, 0);
    ConnectFirstEnd(s, line, Head, comment, 0);
    var _ := d.ConnectCommentLine(line, Head, comment, 0);
    var s1 := d.Model();
    ConnectValid(s1, line, Tail, elem, 0);
    CommentToElementLinks(s, line, comment, elem, 0);
    FreeEndNoAnnotation(s1, line, Tail);
    assert GlueCommentLine(s1, line, Tail, elem);
    ConnectFreeHandle(s1, line, Tail, elem, 0);
    var _ := d.ConnectCommentLine(line, Tail, elem, 0);
    assert d.connectedTo == s1.connectedTo[HandleRef(line, Tail) := elem];
  }

  /** test_commentline_element_connect: the actor becomes the comment's one annotated element. */
  method ElementConnectScenario() returns (tailTarget: Option<ItemId>, actor: ItemId, annotated: set<ElementId>, actorSubject: ElementId)
    ensures tailTarget == Some(actor)
    ensures |annotated| == 1 && actorSubject in annotated
  {
    var d, comment, line, ac := CommentLineAndElement();
    LinkCommentToElement(d, comment, line, ac);
    actor := ac;
    tailTarget := Target(d.Model(), HandleRef(line, Tail));
    annotated := AnnotatedElement(d.Model(), d.subject[comment]);
    actorSubject := d.subject[ac];
    assert annotated == {actorSubject};
  }

  /** test_commentline_element_disconnect: after disconnecting the tail it no longer rests on the actor. */
  method ElementDisconnectScenario() returns (tailTarget: Option<ItemId>, actor: ItemId)
    ensures tailTarget != Some(actor)
  {
    var d, comment, line, ac := CommentLineAndElement();
    LinkCommentToElement(d, comment, line, ac);
    d.DisconnectCommentLine(line, Tail);
    actor := ac;
    tailTarget := Target(d.Model(), HandleRef(line, Tail));
  }

  /** test_commentline_class: the link is made on both sides, and unlinking the line removes it from both. */
  method CommentLineClassScenario() returns (linkedBoth: bool, annotatedAfter: set<ElementId>, ownedAfter: set<ElementId>)
    ensures linkedBoth && annotatedAfter == {} && ownedAfter == {}
  {
    var d, comment, line, clazz := CommentLineAndElement();
    LinkCommentToElement(d, comment, line, clazz);
    var s := d.Model();
    var c, e := d.subject[comment], d.subject[clazz];
    TwoSided(s, c, e);
    linkedBoth := e in AnnotatedElement(s, c) && c in OwnedComment(s, e);
    assert OnlyCommentLinesOn(s, line);
    UnlinkOnlyLink(s, line);
    d.Unlink(line);
    annotatedAfter := AnnotatedElement(d.Model(), c);
    ownedAfter := OwnedComment(d.Model(), e);
  }

  /** Unlinking the one comment line of a valid diagram leaves no link on either side. */
  lemma UnlinkOnlyLink(s: State, line: ItemId)
    requires Valid(s) && IsCommentLine(s, line) && OnlyCommentLinesOn(s, line)
    requires Annotation(s, line).Some? && s.annotated == {Annotation(s, line).value}
    ensures Unlink(s, line).annotated == {} && Unlink(s, line).owned == {}
  {
    assert HandleRef(line, Head) in Detached(s, line);
    assert Annotation(s, line).value in Dropped(s, line);
    FlippedMinus(s.annotated, s.annotated);
  }

  /** Two class items joined by a relationship line (a generalization or an association) that has its subject. */
  method TwoClassesJoined() returns (d: Diagram, c1: ItemId, c2: ItemId, rel: ItemId)
    ensures fresh(d) && Valid(d.Model())
    ensures c1 in d.kind && d.kind[c1] == ElementBox && c2 in d.kind && d.kind[c2] == ElementBox
    ensures rel in d.kind && d.kind[rel] == Relationship && rel in d.subject
    ensures c1 != c2 && c1 != rel && c2 != rel
    ensures d.connectedTo == map[HandleRef(rel, Head) := c1, HandleRef(rel, Tail) := c2]
    ensures d.annotated == {}
  {
    d, c1, c2, rel := TwoClassesAndRelationship();
    ConnectRelationshipValid(d.Model(), rel, Head, c1, 0);
    var _ := d.ConnectRelationship(rel, Head, c1, 0);
    assert HandleRef(rel, Tail) !in d.connectedTo;
    ConnectRelationshipValid(d.Model(), rel, Tail, c2, 0);
    var _ := d.ConnectRelationship(rel, Tail, c2, 0);
    assert EndsOnElements(d.Model(), rel);
  }

  /** A fresh diagram holding two class items and a relationship line with both ends free. */
  method TwoClassesAndRelationship() returns (d: Diagram, c1: ItemId, c2: ItemId, rel: ItemId)
    ensures fresh(d) && Valid(d.Model())
    ensures c1 in d.kind && d.kind[c1] == ElementBox && c2 in d.kind && d.kind[c2] == ElementBox
    ensures rel in d.kind && d.kind[rel] == Relationship
    ensures c1 != c2 && c1 != rel && c2 != rel
    ensures d.connectedTo == map[] && d.annotated == {}
  {
    d := new Diagram();
    CreateValid(d.Model(), ElementBox);
    c1 := d.Create(ElementBox);
    CreateValid(d.Model(), ElementBox);
    c2 := d.Create(ElementBox);
    CreateValid(d.Model(), Relationship);
    rel := d.Create(Relationship);
  }

  /** Adds a comment item and a comment line to a diagram. */
  method AddCommentAndLine(d: Diagram) returns (comment: ItemId, line: ItemId)
    requires Valid(d.Model())
    modifies d
    ensures Valid(d.Model())
    ensures comment !in old(d.kind) && line !in old(d.kind) && comment != line
    ensures d.kind == old(d.kind)[comment := CommentBox][line := CommentLine]
    ensures comment in d.subject && d.subject == old(d.subject)[comment := d.subject[comment]]
    ensures d.connectedTo == old(d.connectedTo) && d.annotated == old(d.annotated)
  {
    CreateValid(d.Model(), CommentBox);
    comment := d.Create(CommentBox);
    CreateValid(d.Model(), CommentLine);
    line := d.Create(CommentLine);
  }

  /** Two class items joined by a relationship line, plus a comment item and a comment line with both ends free. */
  method RelationshipAndComment() returns (d: Diagram, c1: ItemId, c2: ItemId, rel: ItemId, comment: ItemId, line: ItemId)
    ensures fresh(d) && Valid(d.Model())
    ensures rel in d.kind && d.kind[rel] == Relationship && rel in d.subject
    ensures comment in d.kind && d.kind[comment] == CommentBox && comment in d.subject
    ensures IsCommentLine(d.Model(), line)
    ensures comment != line && comment != rel && line != rel && c1 != rel && c2 != rel
    ensures d.connectedTo == map[HandleRef(rel, Head) := c1, HandleRef(rel, Tail) := c2]
    ensures d.annotated == {}
  {
    d, c1, c2, rel := TwoClassesJoined();
    comment, line := AddCommentAndLine(d);
  }

  /** The state a comment line from a comment to a relationship leaves: only that line rests on the relationship, and it links the two subjects. */
  lemma RelationshipLineFacts(s: State, comment: ItemId, line: ItemId, gen: ItemId, c1: ItemId, c2: ItemId)
    requires s.connectedTo == map[HandleRef(gen, Head) := c1, HandleRef(gen, Tail) := c2][HandleRef(line, Head) := comment][HandleRef(line, Tail) := gen]
    requires IsCommentLine(s, line) && comment in s.kind && s.kind[comment] == CommentBox
    requires comment in s.subject && gen in s.subject
    requires comment != gen && c1 != gen && c2 != gen && line != gen
    ensures OnlyCommentLinesOn(s, gen)
    ensures Target(s, HandleRef(line, Tail)) == Some(gen)
    ensures Annotation(s, line) == Some((s.subject[comment], s.subject[gen]))
  {
    forall h | h in s.connectedTo && s.connectedTo[h] == gen ensures IsCommentLine(s, h.line) {
      assert h == HandleRef(line, Tail);
    }
    assert Target(s, HandleRef(line, Head)) == Some(comment);
  }

  /**
   * test_commentline_relationship_unlink: a comment line from a comment to a
   * generalization links the two; unlinking the generalization removes the
   * link and the generalization's subject.
   */
  method RelationshipUnlinkScenario() returns (linkedBoth: bool, annotatedAfter: set<ElementId>, genHasSubject: bool)
    ensures linkedBoth && annotatedAfter == {} && !genHasSubject
  {
    var d, c1, c2, gen, comment, line := RelationshipAndComment();
    LinkCommentToElement(d, comment, line, gen);
    var s := d.Model();
    RelationshipLineFacts(s, comment, line, gen, c1, c2);
    var c, g := s.subject[comment], s.subject[gen];
    TwoSided(s, c, g);
    linkedBoth := g in AnnotatedElement(s, c) && c in OwnedComment(s, g);
    UnlinkCascades(s, gen, line, Tail);
    d.Unlink(gen);
    assert d.annotated == {};
    annotatedAfter := AnnotatedElement(d.Model(), c);
    genHasSubject := gen in d.subject;
  }

  /** An association joining two classes, with a comment line whose head rests on the association. */
  method AssociationWithLineHead() returns (d: Diagram, comment: ItemId, line: ItemId, assoc: ItemId)
    ensures fresh(d) && Valid(d.Model())
    ensures assoc in d.kind && d.kind[assoc] == Relationship && assoc in d.subject
    ensures comment in d.kind && d.kind[comment] == CommentBox && comment in d.subject && comment != assoc
    ensures IsCommentLine(d.Model(), line)
    ensures Target(d.Model(), HandleRef(line, Head)) == Some(assoc) && HandleRef(line, Head) in d.connectionData
    ensures HandleRef(line, Tail) !in d.connectedTo
    ensures d.annotated == {}
  {
    var c1, c2;
    d, c1, c2, assoc, comment, line := RelationshipAndComment();
    var s := d.Model();
    ConnectValid(s, line, Head, assoc, 0);
    ConnectFirstEnd(s, line, Head, assoc, 0);
    var _ := d.ConnectCommentLine(line, Head, assoc, 0);
  }

  /**
   * test_commentline_association, first half: the head rests on the
   * association with its connection data and links nothing; the tail may
   * not then glue to the same association.
   */
  method AssociationHeadScenario() returns (headOnAssoc: bool, headHasData: bool, annotatedAfterHead: set<ElementId>,
                                            tailAfterRefusal: Option<ItemId>, annotatedAfterRefusal: set<ElementId>)
    ensures headOnAssoc && headHasData && annotatedAfterHead == {}
    ensures tailAfterRefusal == None && annotatedAfterRefusal == {}
  {
    var d, comment, line, assoc := AssociationWithLineHead();
    headOnAssoc := Target(d.Model(), HandleRef(line, Head)) == Some(assoc);
    headHasData := HandleRef(line, Head) in d.connectionData;
    annotatedAfterHead := AnnotatedElement(d.Model(), d.subject[comment]);
    var _ := d.ConnectCommentLine(line, Tail, assoc, 0);
    tailAfterRefusal := Target(d.Model(), HandleRef(line, Tail));
    annotatedAfterRefusal := AnnotatedElement(d.Model(), d.subject[comment]);
  }

  /** The tail of the line connected to the comment: the comment annotates the association. */
  lemma AssociationTailLinks(s: State, comment: ItemId, line: ItemId, assoc: ItemId)
    requires IsCommentLine(s, line) && s.annotated == {}
    requires assoc in s.kind && s.kind[assoc] == Relationship && assoc in s.subject
    requires comment in s.kind && s.kind[comment] == CommentBox && comment in s.subject && comment != assoc
    requires Target(s, HandleRef(line, Head)) == Some(assoc) && HandleRef(line, Tail) !in s.connectedTo
    ensures var r := ConnectCommentLine(s, line, Tail, comment, 0);
      r.0 && Annotation(r.1, line) == Some((s.subject[comment], s.subject[assoc])) &&
      r.1.annotated == {(s.subject[comment], s.subject[assoc])}
  {
    ConnectFreeHandle(s, line, Tail, comment, 0);
    var a := Attach(s, HandleRef(line, Tail), comment, 0);
    assert Target(a, HandleRef(line, Head)) == Some(assoc) && Target(a, HandleRef(line, Tail)) == Some(comment);
    assert Annotation(a, line) == Some((s.subject[comment], s.subject[assoc]));
    LinkForm(a, line);
    AnnotationFrame(a, Link(a, line), line);
  }

  /** The comment line's tail on the comment, its head on the association. */
  method AssociationLinked() returns (d: Diagram, comment: ItemId, line: ItemId, assoc: ItemId, tailLinked: bool)
    ensures fresh(d)
    ensures IsCommentLine(d.Model(), line) && comment != assoc && comment in d.kind && assoc in d.subject && comment in d.subject
    ensures tailLinked
    ensures Target(d.Model(), HandleRef(line, Head)) == Some(assoc)
    ensures Target(d.Model(), HandleRef(line, Tail)) == Some(comment) && HandleRef(line, Tail) in d.connectionData
    ensures Annotation(d.Model(), line) == Some((d.subject[comment], d.subject[assoc]))
    ensures d.annotated == {(d.subject[comment], d.subject[assoc])}
  {
    d, comment, line, assoc := AssociationWithLineHead();
    AssociationTailLinks(d.Model(), comment, line, assoc);
    tailLinked := d.ConnectCommentLine(line, Tail, comment, 0);
  }

  /**
   * test_commentline_association, second half: the tail on the comment
   * makes the association the comment's one annotated element;
   * disconnecting the tail clears the handle and the link, and the tail can
   * be connected again.
   */
  method AssociationCommentScenario() returns (tailOnComment: bool, tailHasData: bool, annotated: set<ElementId>, assocSubject: ElementId,
                                               tailAfterDisconnect: Option<ItemId>, tailDataAfterDisconnect: bool,
                                               annotatedAfterDisconnect: set<ElementId>, reconnected: bool,
                                               commentItem: ItemId, tailAfterReconnect: Option<ItemId>)
    ensures tailOnComment && tailHasData && |annotated| == 1 && assocSubject in annotated
    ensures tailAfterDisconnect == None && !tailDataAfterDisconnect
    ensures annotatedAfterDisconnect == {} && assocSubject !in annotatedAfterDisconnect
    ensures reconnected && tailAfterReconnect == Some(commentItem)
  {
    var d, comment, line, assoc, _ := AssociationLinked();
    var c := d.subject[comment];
    assocSubject := d.subject[assoc];
    tailOnComment := Target(d.Model(), HandleRef(line, Tail)) == Some(comment);
    tailHasData := HandleRef(line, Tail) in d.connectionData;
    annotated := AnnotatedElement(d.Model(), c);
    assert annotated == {assocSubject};
    d.DisconnectCommentLine(line, Tail);
    tailAfterDisconnect := Target(d.Model(), HandleRef(line, Tail));
    tailDataAfterDisconnect := HandleRef(line, Tail) in d.connectionData;
    assert d.annotated == {};
    annotatedAfterDisconnect := AnnotatedElement(d.Model(), c);
    reconnected := d.ConnectCommentLine(line, Tail, comment, 0);
    commentItem := comment;
    tailAfterReconnect := Target(d.Model(), HandleRef(line, Tail));
  }
}
