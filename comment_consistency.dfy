/**
 * Every link in Comment.annotatedElement is made by a comment line of the
 * diagram, and distinct items have distinct subjects. Every transition
 * keeps this, so unlinking an item leaves no link that names its subject.
 */
module CommentConsistency {
  import opened Optional
  import opened CommentConnection

  /** No orphan links, and one model element per item. */
  ghost predicate Consistent(s: State)
  {
    && (forall p :: p in s.annotated ==> exists l :: IsCommentLine(s, l) && Annotation(s, l) == Some(p))
    && Injective(s.subject)
  }

  /** Subjects are distinct. */
  ghost predicate Injective(m: map<ItemId, ElementId>)
  {
    forall i, j :: i in m && j in m && i != j ==> m[i] != m[j]
  }

  /** Two states that agree on a line's targets, and on their kinds and subjects, give the line the same annotation. */
  lemma AnnotationLocal(s: State, t: State, l: ItemId)
    requires Target(t, HandleRef(l, Head)) == Target(s, HandleRef(l, Head))
    requires Target(t, HandleRef(l, Tail)) == Target(s, HandleRef(l, Tail))
    requires forall h :: h in {HandleRef(l, Head), HandleRef(l, Tail)} && h in s.connectedTo ==>
      var c := s.connectedTo[h];
      (c in s.kind <==> c in t.kind) && (c in s.kind ==> s.kind[c] == t.kind[c]) &&
      (c in s.subject <==> c in t.subject) && (c in s.subject ==> s.subject[c] == t.subject[c])
    ensures Annotation(t, l) == Annotation(s, l)
  {
    var H, T := HandleRef(l, Head), HandleRef(l, Tail);
    if H in s.connectedTo && T in s.connectedTo {
      assert H in {H, T} && T in {H, T};
    }
  }

  lemma EmptyConsistent()
    ensures Consistent(Empty())
  {
  }

  /** Creating an item leaves every comment line's annotation as it was. */
  lemma CreateKeepsAnnotation(s: State, k: ItemKind, l: ItemId)
    requires Valid(s) && IsCommentLine(s, l) && Annotation(s, l).Some?
    ensures IsCommentLine(Create(s, k).1, l) && Annotation(Create(s, k).1, l) == Annotation(s, l)
  {
    var r := Create(s, k);
    assert s.connectedTo[HandleRef(l, Head)] in s.kind && s.connectedTo[HandleRef(l, Tail)] in s.kind;
    AnnotationLocal(s, r.1, l);
  }

  /** Creating an item keeps every link made by a line, and its new subject is not an old one. */
  lemma CreateConsistent(s: State, k: ItemKind)
    requires Valid(s) && Consistent(s)
    ensures Consistent(Create(s, k).1)
  {
    var r := Create(s, k).1;
    forall p | p in r.annotated ensures exists l :: IsCommentLine(r, l) && Annotation(r, l) == Some(p) {
      var l :| IsCommentLine(s, l) && Annotation(s, l) == Some(p);
      CreateKeepsAnnotation(s, k, l);
    }
    assert Injective(r.subject) by {
      if !k.IsLine() {
        var id := Create(s, k).0;
        forall i | i in s.subject ensures s.subject[i] != r.subject[id] {
          assert s.subject[i] in s.subject.Values;
        }
      }
    }
  }

  /** Disconnecting a comment-line handle removes only its line's link, so the rest still have their lines. */
  lemma DisconnectConsistent(s: State, line: ItemId, end: End)
    requires IsCommentLine(s, line) && Consistent(s)
    ensures Consistent(DisconnectCommentLine(s, line, end))
  {
    var r := DisconnectCommentLine(s, line, end);
    if HandleRef(line, end) in s.connectedTo {
      forall p | p in r.annotated ensures exists l :: IsCommentLine(r, l) && Annotation(r, l) == Some(p) {
        var l :| IsCommentLine(s, l) && Annotation(s, l) == Some(p);
        assert l != line;
        assert HandleRef(l, Head) != HandleRef(line, end) && HandleRef(l, Tail) != HandleRef(line, end);
        AnnotationLocal(s, r, l);
        assert IsCommentLine(r, l);
      }
    }
  }

  /** Connecting a comment-line handle adds only the link its own line now makes. */
  lemma ConnectConsistent(s: State, line: ItemId, end: End, target: ItemId, port: nat)
    requires IsCommentLine(s, line) && Consistent(s)
    ensures Consistent(ConnectCommentLine(s, line, end, target, port).1)
  {
    if GlueCommentLine(s, line, end, target) {
      var h := HandleRef(line, end);
      var d := DisconnectCommentLine(s, line, end);
      DisconnectConsistent(s, line, end);
      var a := Attach(d, h, target, port);
      var r := Link(a, line);
      assert ConnectCommentLine(s, line, end, target, port).1 == r;
      LinkForm(a, line);
      AnnotationFrame(a, r, line);
      forall p | p in r.annotated ensures exists l :: IsCommentLine(r, l) && Annotation(r, l) == Some(p) {
        if p in d.annotated {
          var l :| IsCommentLine(d, l) && Annotation(d, l) == Some(p);
          assert l != line;
          assert HandleRef(l, Head) != h && HandleRef(l, Tail) != h;
          AnnotationLocal(d, a, l);
          AnnotationFrame(a, r, l);
          assert IsCommentLine(r, l);
        } else {
          assert Annotation(r, line) == Some(p);
        }
      }
    }
  }

  /** Connecting a relationship end leaves every comment line's annotation as it was. */
  lemma RelationshipKeepsAnnotation(s: State, rel: ItemId, end: End, target: ItemId, port: nat, l: ItemId)
    requires Valid(s) && rel in s.kind && s.kind[rel] == Relationship
    requires HandleRef(rel, end) !in s.connectedTo
    requires IsCommentLine(s, l) && Annotation(s, l).Some?
    ensures var r := ConnectRelationship(s, rel, end, target, port).1;
      IsCommentLine(r, l) && Annotation(r, l) == Annotation(s, l)
  {
    var r := ConnectRelationship(s, rel, end, target, port).1;
    assert rel !in s.subject;
    assert HandleRef(l, Head) != HandleRef(rel, end) && HandleRef(l, Tail) != HandleRef(rel, end);
    assert r.subject == s.subject || r.subject == s.subject[rel := r.subject[rel]];
    AnnotationLocal(s, r, l);
  }

  /** A subject given to a relationship is not an old one. */
  lemma RelationshipSubjectInjective(s: State, rel: ItemId, end: End, target: ItemId, port: nat)
    requires Valid(s) && rel in s.kind && s.kind[rel] == Relationship
    requires HandleRef(rel, end) !in s.connectedTo
    requires Injective(s.subject)
    ensures Injective(ConnectRelationship(s, rel, end, target, port).1.subject)
  {
    var r := ConnectRelationship(s, rel, end, target, port).1;
    if rel in r.subject {
      assert rel !in s.subject;
      assert r.subject == s.subject[rel := r.subject[rel]];
      forall i | i in s.subject ensures s.subject[i] != r.subject[rel] {
        assert s.subject[i] in s.subject.Values;
      }
    } else {
      assert r.subject == s.subject;
    }
  }

  /** Connecting a relationship end makes no link, and a new subject for the relationship is not an old one. */
  lemma ConnectRelationshipConsistent(s: State, rel: ItemId, end: End, target: ItemId, port: nat)
    requires Valid(s) && rel in s.kind && s.kind[rel] == Relationship
    requires HandleRef(rel, end) !in s.connectedTo
    requires Consistent(s)
    ensures Consistent(ConnectRelationship(s, rel, end, target, port).1)
  {
    var r := ConnectRelationship(s, rel, end, target, port).1;
    forall p | p in r.annotated ensures exists l :: IsCommentLine(r, l) && Annotation(r, l) == Some(p) {
      var l :| IsCommentLine(s, l) && Annotation(s, l) == Some(p);
      RelationshipKeepsAnnotation(s, rel, end, target, port, l);
    }
    RelationshipSubjectInjective(s, rel, end, target, port);
  }

  /**
   * A comment line that already rests on a relationship without a subject is
   * not linked when the relationship later gets one: the line now annotates
   * (comment, relationship), yet annotatedElement does not hold that pair.
   */
  lemma SubjectAfterLineNotLinked(s: State, rel: ItemId, end: End, target: ItemId, port: nat, l: ItemId, c: ItemId)
    requires Valid(s) && rel in s.kind && s.kind[rel] == Relationship
    requires HandleRef(rel, end) !in s.connectedTo
    requires IsCommentLine(s, l) && Target(s, HandleRef(l, Head)) == Some(c) && Target(s, HandleRef(l, Tail)) == Some(rel)
    requires c in s.subject && s.kind[c] == CommentBox
    ensures Annotation(s, l) == None
    ensures var r := ConnectRelationship(s, rel, end, target, port).1;
      rel in r.subject ==> Annotation(r, l) == Some((s.subject[c], r.subject[rel])) && Annotation(r, l).value !in r.annotated
  {
    var r := ConnectRelationship(s, rel, end, target, port).1;
    assert rel !in s.subject;
    if rel in r.subject {
      assert HandleRef(l, Head) != HandleRef(rel, end) && HandleRef(l, Tail) != HandleRef(rel, end);
      assert c != rel;
    }
  }

  /** A link that survives unlinking x comes from a line none of whose handles rests on x or belongs to x. */
  lemma SurvivingLink(s: State, x: ItemId, p: Pair) returns (l: ItemId)
    requires x in s.kind && OnlyCommentLinesOn(s, x) && Consistent(s)
    requires p in Unlink(s, x).annotated
    ensures IsCommentLine(s, l) && Annotation(s, l) == Some(p) && l != x
    ensures HandleRef(l, Head) in s.connectedTo && HandleRef(l, Tail) in s.connectedTo
    ensures HandleRef(l, Head) !in Detached(s, x) && HandleRef(l, Tail) !in Detached(s, x)
  {
    l :| IsCommentLine(s, l) && Annotation(s, l) == Some(p);
  }

  /** Unlinking an item keeps every surviving link attached to its line. */
  lemma UnlinkConsistent(s: State, x: ItemId)
    requires x in s.kind && OnlyCommentLinesOn(s, x) && Consistent(s)
    ensures Consistent(Unlink(s, x))
  {
    var r := Unlink(s, x);
    forall p | p in r.annotated ensures exists l :: IsCommentLine(r, l) && Annotation(r, l) == Some(p) {
      var l := SurvivingLink(s, x, p);
      assert s.connectedTo[HandleRef(l, Head)] != x && s.connectedTo[HandleRef(l, Tail)] != x;
      AnnotationLocal(s, r, l);
      assert IsCommentLine(r, l);
    }
  }

  /**
   * Cascade completeness: after item.unlink(), neither annotatedElement nor
   * ownedComment names the unlinked item's subject anywhere.
   */
  lemma UnlinkLeavesNoMention(s: State, x: ItemId)
    requires Valid(s) && Consistent(s) && x in s.kind && OnlyCommentLinesOn(s, x) && x in s.subject
    ensures forall p :: p in Unlink(s, x).annotated ==> p.0 != s.subject[x] && p.1 != s.subject[x]
    ensures forall p :: p in Unlink(s, x).owned ==> p.0 != s.subject[x] && p.1 != s.subject[x]
  {
    var r := Unlink(s, x);
    var e := s.subject[x];
    forall p | p in r.annotated ensures p.0 != e && p.1 != e {
      var l := SurvivingLink(s, x, p);
    }
    UnlinkValid(s, x);
    forall q | q in r.owned ensures q.0 != e && q.1 != e {
      var p :| p in r.annotated && q == Flip(p);
    }
  }
}
