/**
 * The comment-line connection behaviour pinned by
 * gaphor/adapters/tests/test_comment.py, as transitions of a diagram state:
 * handles of line items are glued, connected and disconnected to items,
 * and a comment line whose two ends rest on a comment and on an element
 * keeps Comment.annotatedElement and Element.ownedComment in step.
 * Relationship lines (generalizations, associations) get their subject once
 * both ends rest on element boxes; unlinking an item cascades.
 */
module CommentConnection {
  import opened Optional

  type ItemId = nat
  type ElementId = nat

  /** The kinds of diagram item the scenarios use. */
  datatype ItemKind =
    | CommentBox    // a comment item, whose subject is a Comment
    | ElementBox    // a class or actor item
    | Relationship  // a generalization or association item: a line with a subject
    | CommentLine   // a comment line item
  {
    predicate IsLine()
    {
      this == Relationship || this == CommentLine
    }
  }

  datatype End = Head | Tail
  {
    function Other(): End
    {
      if this == Head then Tail else Head
    }
  }

  /** One of the two handles of a line item. */
  datatype HandleRef = HandleRef(line: ItemId, end: End)

  /** What connect leaves on a handle for disconnect: the port it was attached to. */
  datatype ConnectionData = ConnectionData(port: nat)

  type Pair = (ElementId, ElementId)

  /**
   * The diagram and the model elements behind it. A handle is connected
   * exactly when it is a key of connectedTo; annotated holds the pairs
   * (comment, element) of Comment.annotatedElement and owned the pairs
   * (element, comment) of Element.ownedComment.
   */
  datatype State = State(
    kind: map<ItemId, ItemKind>,
    subject: map<ItemId, ElementId>,
    connectedTo: map<HandleRef, ItemId>,
    connectionData: map<HandleRef, ConnectionData>,
    annotated: set<Pair>,
    owned: set<Pair>,
    nextItem: ItemId,
    nextElement: ElementId)

  function Flip(p: Pair): Pair
  {
    (p.1, p.0)
  }

  function Flipped(r: set<Pair>): set<Pair>
  {
    set p | p in r :: Flip(p)
  }

  /** comment.annotatedElement. */
  function AnnotatedElement(s: State, comment: ElementId): set<ElementId>
  {
    set p | p in s.annotated && p.0 == comment :: p.1
  }

  /** element.ownedComment. */
  function OwnedComment(s: State, element: ElementId): set<ElementId>
  {
    set p | p in s.owned && p.0 == element :: p.1
  }

  /** handle.connected_to. */
  function Target(s: State, h: HandleRef): Option<ItemId>
  {
    if h in s.connectedTo then Some(s.connectedTo[h]) else None
  }

  /** Both ends of relationship r rest on element boxes. */
  predicate EndsOnElements(s: State, r: ItemId)
  {
    && HandleRef(r, Head) in s.connectedTo && HandleRef(r, Tail) in s.connectedTo
    && s.connectedTo[HandleRef(r, Head)] in s.kind && s.connectedTo[HandleRef(r, Tail)] in s.kind
    && s.kind[s.connectedTo[HandleRef(r, Head)]] == ElementBox
    && s.kind[s.connectedTo[HandleRef(r, Tail)]] == ElementBox
  }

  predicate Valid(s: State)
  {
    && s.connectedTo.Keys == s.connectionData.Keys
    && (forall h :: h in s.connectedTo ==>
          h.line in s.kind && s.kind[h.line].IsLine() && s.connectedTo[h] in s.kind)
    && s.subject.Keys <= s.kind.Keys
    && s.owned == Flipped(s.annotated)
    && (forall r :: r in s.subject && s.kind[r] == Relationship ==> EndsOnElements(s, r))
    && (forall i :: i in s.kind ==> i < s.nextItem)
    && (forall i :: i in s.subject ==> s.subject[i] < s.nextElement)
    && (forall p :: p in s.annotated ==> p.0 < s.nextElement && p.1 < s.nextElement)
  }

  function Empty(): (s: State)
    ensures Valid(s)
  {
    State(map[], map[], map[], map[], {}, {}, 0, 0)
  }

  lemma {:induction false} FlippedAdd(r: set<Pair>, p: Pair)
    ensures Flipped(r + {p}) == Flipped(r) + {Flip(p)}
  {
    assert Flip(p) in Flipped(r + {p});
  }

  lemma FlippedUnion(a: set<Pair>, b: set<Pair>)
    ensures Flipped(a + b) == Flipped(a) + Flipped(b)
  {
  }

  lemma {:induction false} FlippedMinus(r: set<Pair>, d: set<Pair>)
    ensures Flipped(r - d) == Flipped(r) - Flipped(d)
  {
    forall q | q in Flipped(r) - Flipped(d) ensures q in Flipped(r - d) {
      var p :| p in r && q == Flip(p);
      assert forall o :: o in d ==> Flip(o) in Flipped(d);
    }
  }

  /** The two sides of the annotation link agree: e is annotated by c exactly when c is owned by e. */
  lemma TwoSided(s: State, c: ElementId, e: ElementId)
    requires Valid(s)
    ensures e in AnnotatedElement(s, c) <==> c in OwnedComment(s, e)
  {
    if e in AnnotatedElement(s, c) {
      assert (c, e) in s.annotated;
      assert Flip((c, e)) in Flipped(s.annotated);
      assert (e, c) in s.owned;
    }
    if c in OwnedComment(s, e) {
      assert (e, c) in s.owned;
      var p :| p in s.annotated && (e, c) == Flip(p);
      assert p == (c, e);
    }
  }

  /** self.create(kind): a new item; a box also gets a new model element as its subject. */
  function Create(s: State, k: ItemKind): (r: (ItemId, State))
    requires Valid(s)
    ensures r.0 !in s.kind && r.1.kind == s.kind[r.0 := k]
    ensures k.IsLine() ==> r.1.subject == s.subject && r.0 !in r.1.subject
    ensures !k.IsLine() ==> r.1.subject == s.subject[r.0 := s.nextElement]
    ensures !k.IsLine() ==> r.1.subject[r.0] !in s.subject.Values
    ensures !k.IsLine() ==> AnnotatedElement(r.1, r.1.subject[r.0]) == {}
    ensures !k.IsLine() ==> OwnedComment(r.1, r.1.subject[r.0]) == {}
    ensures r.1.connectedTo == s.connectedTo && r.1.connectionData == s.connectionData
    ensures r.1.annotated == s.annotated && r.1.owned == s.owned
  {
    var id := s.nextItem;
    var s1 := s.(kind := s.kind[id := k], nextItem := id + 1);
    if k.IsLine() then (id, s1)
    else
      var e := s.nextElement;
      assert e !in s.subject.Values;
      OwnedBelow(s);
      (id, s1.(subject := s.subject[id := e], nextElement := e + 1))
  }

  /** Every element named in ownedComment was created before the next fresh one. */
  lemma OwnedBelow(s: State)
    requires Valid(s)
    ensures forall p :: p in s.owned ==> p.0 < s.nextElement && p.1 < s.nextElement
  {
    forall p | p in s.owned ensures p.0 < s.nextElement && p.1 < s.nextElement {
      var q :| q in s.annotated && p == Flip(q);
    }
  }

  /** Creating an item keeps the diagram valid. */
  lemma CreateValid(s: State, k: ItemKind)
    requires Valid(s)
    ensures Valid(Create(s, k).1)
  {
    var s1 := s.(kind := s.kind[s.nextItem := k], nextItem := s.nextItem + 1);
    NewItemValid(s, k);
    if !k.IsLine() {
      GiveSubjectValid(s1, s.nextItem);
      assert Create(s, k).1 == s1.(subject := s1.subject[s.nextItem := s1.nextElement], nextElement := s1.nextElement + 1);
    } else {
      assert Create(s, k).1 == s1;
    }
  }

  /** An item under the next fresh identifier keeps the diagram valid. */
  lemma NewItemValid(s: State, k: ItemKind)
    requires Valid(s)
    ensures Valid(s.(kind := s.kind[s.nextItem := k], nextItem := s.nextItem + 1))
  {
    var s1 := s.(kind := s.kind[s.nextItem := k], nextItem := s.nextItem + 1);
    forall r | r in s1.subject && s1.kind[r] == Relationship ensures EndsOnElements(s1, r) {
      assert EndsOnElements(s, r);
    }
  }

  /** A handle attached to target at port. */
  function Attach(s: State, h: HandleRef, target: ItemId, port: nat): State
  {
    s.(connectedTo := s.connectedTo[h := target], connectionData := s.connectionData[h := ConnectionData(port)])
  }

  /** Attaching two different handles commutes. */
  lemma AttachCommutes(s: State, h1: HandleRef, t1: ItemId, p1: nat, h2: HandleRef, t2: ItemId, p2: nat)
    requires h1 != h2
    ensures Attach(Attach(s, h1, t1, p1), h2, t2, p2) == Attach(Attach(s, h2, t2, p2), h1, t1, p1)
  {
    UpdateCommutes(s.connectedTo, h1, t1, h2, t2);
    UpdateCommutes(s.connectionData, h1, ConnectionData(p1), h2, ConnectionData(p2));
  }

  /** Attaching a handle of a line without a relationship subject to an existing item keeps the state valid. */
  lemma AttachValid(s: State, h: HandleRef, target: ItemId, port: nat)
    requires Valid(s) && h.line in s.kind && s.kind[h.line].IsLine() && target in s.kind
    requires !(h.line in s.subject && s.kind[h.line] == Relationship)
    ensures Valid(Attach(s, h, target, port))
  {
    var a := Attach(s, h, target, port);
    forall r | r in a.subject && a.kind[r] == Relationship ensures EndsOnElements(a, r) {
      assert EndsOnElements(s, r);
      assert HandleRef(r, Head) != h && HandleRef(r, Tail) != h;
    }
  }

  lemma UpdateCommutes<K, V>(m: map<K, V>, k1: K, v1: V, k2: K, v2: V)
    requires k1 != k2
    ensures m[k1 := v1][k2 := v2] == m[k2 := v2][k1 := v1]
  {
  }

  /**
   * The annotation a comment line implies: when both ends are connected and
   * one end rests on a comment item, (that comment, the other end's subject).
   */
  function Annotation(s: State, line: ItemId): (r: Option<Pair>)
    ensures r.Some? ==> HandleRef(line, Head) in s.connectedTo && HandleRef(line, Tail) in s.connectedTo
    ensures r.Some? && HandleRef(line, Head) in s.connectedTo && HandleRef(line, Tail) in s.connectedTo ==>
      var th, tt := s.connectedTo[HandleRef(line, Head)], s.connectedTo[HandleRef(line, Tail)];
      th in s.subject && tt in s.subject &&
      ((Annotates(s, th, tt) && r.value == (s.subject[th], s.subject[tt])) ||
       (Annotates(s, tt, th) && r.value == (s.subject[tt], s.subject[th])))
    ensures (HandleRef(line, Head) in s.connectedTo && HandleRef(line, Tail) in s.connectedTo &&
             (Annotates(s, s.connectedTo[HandleRef(line, Head)], s.connectedTo[HandleRef(line, Tail)]) ||
              Annotates(s, s.connectedTo[HandleRef(line, Tail)], s.connectedTo[HandleRef(line, Head)]))) ==> r.Some?
  {
    var th, tt := Target(s, HandleRef(line, Head)), Target(s, HandleRef(line, Tail));
    if th.None? || tt.None? then None
    else if Annotates(s, th.value, tt.value) then Some((s.subject[th.value], s.subject[tt.value]))
    else if Annotates(s, tt.value, th.value) then Some((s.subject[tt.value], s.subject[th.value]))
    else None
  }

  /** Item c is a comment item and item e has a subject it can annotate. */
  predicate Annotates(s: State, c: ItemId, e: ItemId)
  {
    c in s.kind && s.kind[c] == CommentBox && c in s.subject && e in s.subject
  }

  /** A comment line with a free end implies no annotation. */
  lemma FreeEndNoAnnotation(s: State, line: ItemId, end: End)
    requires HandleRef(line, end) !in s.connectedTo
    ensures Annotation(s, line) == None
  {
    if end == Head {
      assert Target(s, HandleRef(line, Head)) == None;
    } else {
      assert Target(s, HandleRef(line, Tail)) == None;
    }
  }

  /** The annotation depends only on the items, their subjects and the handles' targets. */
  lemma AnnotationFrame(s: State, t: State, line: ItemId)
    requires s.kind == t.kind && s.subject == t.subject && s.connectedTo == t.connectedTo
    ensures Annotation(s, line) == Annotation(t, line)
  {
  }

  /** Whether a comment-line handle may attach to target: never to the item its other end rests on. */
  predicate GlueCommentLine(s: State, line: ItemId, end: End, target: ItemId)
    ensures GlueCommentLine(s, line, end, target) ==> target in s.kind
    ensures target in s.kind && HandleRef(line, end.Other()) !in s.connectedTo ==> GlueCommentLine(s, line, end, target)
    ensures Target(s, HandleRef(line, end.Other())) == Some(target) ==> !GlueCommentLine(s, line, end, target)
  {
    target in s.kind && Target(s, HandleRef(line, end.Other())) != Some(target)
  }

  predicate IsCommentLine(s: State, line: ItemId)
  {
    line in s.kind && s.kind[line] == CommentLine
  }

  /** Adds the annotation the line implies, if any, to both sides. */
  function Link(s: State, line: ItemId): (r: State)
    ensures r.kind == s.kind && r.subject == s.subject && r.connectedTo == s.connectedTo && r.connectionData == s.connectionData
    ensures r.nextItem == s.nextItem && r.nextElement == s.nextElement
    ensures s.annotated <= r.annotated && s.owned <= r.owned
    ensures Annotation(s, line).Some? ==> Annotation(s, line).value in r.annotated && Flip(Annotation(s, line).value) in r.owned
    ensures Annotation(s, line).None? ==> r == s
  {
    match Annotation(s, line)
    case None => s
    case Some(p) => s.(annotated := s.annotated + {p}, owned := s.owned + {Flip(p)})
  }

  /** Disconnect of a comment-line handle: removes the annotation first, then clears the handle. */
  function DisconnectCommentLine(s: State, line: ItemId, end: End): (r: State)
    requires IsCommentLine(s, line)
    ensures HandleRef(line, end) !in r.connectedTo
    ensures forall h :: h != HandleRef(line, end) ==> Target(r, h) == Target(s, h)
    ensures r.kind == s.kind && r.subject == s.subject
    ensures HandleRef(line, end) !in s.connectedTo ==> r == s
    ensures HandleRef(line, end) in s.connectedTo ==> r.connectionData == s.connectionData - {HandleRef(line, end)}
    ensures HandleRef(line, end) in s.connectedTo ==>
      r.annotated == s.annotated - AnnotationSet(s, line) && r.owned == s.owned - Flipped(AnnotationSet(s, line))
    ensures Annotation(r, line) == None
  {
    var h := HandleRef(line, end);
    if h !in s.connectedTo then
      FreeEndNoAnnotation(s, line, end);
      s
    else
      var gone := AnnotationSet(s, line);
      var r := s.(annotated := s.annotated - gone, owned := s.owned - Flipped(gone),
                  connectedTo := s.connectedTo - {h}, connectionData := s.connectionData - {h});
      FreeEndNoAnnotation(r, line, end);
      r
  }

  /** Disconnecting a comment-line handle keeps the diagram valid. */
  lemma DisconnectValid(s: State, line: ItemId, end: End)
    requires Valid(s) && IsCommentLine(s, line)
    ensures Valid(DisconnectCommentLine(s, line, end))
  {
    var r := DisconnectCommentLine(s, line, end);
    if HandleRef(line, end) in s.connectedTo {
      FlippedMinus(s.annotated, AnnotationSet(s, line));
      forall rel | rel in r.subject && r.kind[rel] == Relationship ensures EndsOnElements(r, rel) {
        assert EndsOnElements(s, rel);
      }
    }
  }

  /** Adding the annotation of a line whose targets exist keeps the state valid. */
  lemma LinkValid(s: State, line: ItemId)
    requires Valid(s)
    ensures Valid(Link(s, line))
    ensures Link(s, line).connectedTo == s.connectedTo && Link(s, line).kind == s.kind
  {
    if Annotation(s, line).Some? {
      var p := Annotation(s, line).value;
      FlippedAdd(s.annotated, p);
    }
  }

  /**
   * Connect of a comment-line handle: refused (nothing changes) unless glue
   * accepts; otherwise the handle is moved off any previous target, attached,
   * and the annotation the line now implies is added.
   */
  function ConnectCommentLine(s: State, line: ItemId, end: End, target: ItemId, port: nat): (r: (bool, State))
    requires IsCommentLine(s, line)
    ensures r.0 == GlueCommentLine(s, line, end, target)
    ensures !r.0 ==> r.1 == s
    ensures r.0 ==> Target(r.1, HandleRef(line, end)) == Some(target)
    ensures r.0 ==> HandleRef(line, end) in r.1.connectionData && r.1.connectionData[HandleRef(line, end)] == ConnectionData(port)
    ensures r.0 ==> forall h :: h != HandleRef(line, end) ==> Target(r.1, h) == Target(s, h)
    ensures r.1.kind == s.kind && r.1.subject == s.subject
  {
    if !GlueCommentLine(s, line, end, target) then (false, s)
    else
      var s2 := Attach(DisconnectCommentLine(s, line, end), HandleRef(line, end), target, port);
      LinkForm(s2, line);
      (true, Link(s2, line))
  }

  /** Connecting a comment-line handle keeps the diagram valid. */
  lemma ConnectValid(s: State, line: ItemId, end: End, target: ItemId, port: nat)
    requires Valid(s) && IsCommentLine(s, line)
    ensures Valid(ConnectCommentLine(s, line, end, target, port).1)
  {
    if GlueCommentLine(s, line, end, target) {
      var d := DisconnectCommentLine(s, line, end);
      DisconnectValid(s, line, end);
      var s2 := Attach(d, HandleRef(line, end), target, port);
      AttachValid(d, HandleRef(line, end), target, port);
      LinkValid(s2, line);
      assert ConnectCommentLine(s, line, end, target, port).1 == Link(s2, line);
    }
  }

  /** Glue of a relationship handle: it attaches only to element boxes. */
  predicate GlueRelationship(s: State, target: ItemId)
    ensures GlueRelationship(s, target) ==> target in s.kind && !s.kind[target].IsLine() && s.kind[target] != CommentBox
  {
    target in s.kind && s.kind[target] == ElementBox
  }

  /**
   * Connect of a free relationship handle: refused unless glue accepts;
   * once both ends rest on element boxes the relationship gets a new subject.
   */
  function ConnectRelationship(s: State, rel: ItemId, end: End, target: ItemId, port: nat): (r: (bool, State))
    requires Valid(s) && rel in s.kind && s.kind[rel] == Relationship
    requires HandleRef(rel, end) !in s.connectedTo
    ensures r.0 == GlueRelationship(s, target)
    ensures !r.0 ==> r.1 == s
    ensures r.0 ==> Target(r.1, HandleRef(rel, end)) == Some(target)
    ensures rel in r.1.subject <==> EndsOnElements(r.1, rel)
    ensures rel in r.1.subject ==> r.1.subject[rel] !in s.subject.Values
    ensures r.0 ==> r.1.connectedTo == s.connectedTo[HandleRef(rel, end) := target]
    ensures r.0 ==> r.1.connectionData == s.connectionData[HandleRef(rel, end) := ConnectionData(port)]
    ensures r.1.annotated == s.annotated && r.1.owned == s.owned && r.1.kind == s.kind
    ensures forall i :: i in s.subject ==> i in r.1.subject && r.1.subject[i] == s.subject[i]
    ensures r.1.subject.Keys <= s.subject.Keys + {rel}
  {
    assert !EndsOnElements(s, rel) by {
      if end == Head { assert HandleRef(rel, Head) !in s.connectedTo; } else { assert HandleRef(rel, Tail) !in s.connectedTo; }
    }
    assert rel !in s.subject;
    if !GlueRelationship(s, target) then (false, s)
    else
      var s1 := Attach(s, HandleRef(rel, end), target, port);
      if EndsOnElements(s1, rel) then
        var e := s.nextElement;
        assert e !in s.subject.Values;
        (true, s1.(subject := s.subject[rel := e], nextElement := e + 1))
      else (true, s1)
  }

  /** Connecting a relationship end keeps the diagram valid. */
  lemma ConnectRelationshipValid(s: State, rel: ItemId, end: End, target: ItemId, port: nat)
    requires Valid(s) && rel in s.kind && s.kind[rel] == Relationship
    requires HandleRef(rel, end) !in s.connectedTo
    ensures Valid(ConnectRelationship(s, rel, end, target, port).1)
  {
    var r := ConnectRelationship(s, rel, end, target, port).1;
    if GlueRelationship(s, target) {
      var s1 := Attach(s, HandleRef(rel, end), target, port);
      AttachValid(s, HandleRef(rel, end), target, port);
      if EndsOnElements(s1, rel) {
        GiveSubjectValid(s1, rel);
        assert r == s1.(subject := s1.subject[rel := s1.nextElement], nextElement := s1.nextElement + 1);
      } else {
        assert r == s1;
      }
    } else {
      assert r == s;
    }
  }

  /** An item that is not a relationship, or one whose ends rest on element boxes, may get the next fresh subject. */
  lemma GiveSubjectValid(s: State, x: ItemId)
    requires Valid(s) && x in s.kind && (s.kind[x] == Relationship ==> EndsOnElements(s, x))
    ensures Valid(s.(subject := s.subject[x := s.nextElement], nextElement := s.nextElement + 1))
  {
    var s2 := s.(subject := s.subject[x := s.nextElement], nextElement := s.nextElement + 1);
    forall r | r in s2.subject && s2.kind[r] == Relationship ensures EndsOnElements(s2, r) {
      assert r == x || EndsOnElements(s, r);
    }
    assert forall p :: p in s2.annotated ==> p.0 < s2.nextElement && p.1 < s2.nextElement;
    assert forall i :: i in s2.subject ==> s2.subject[i] < s2.nextElement;
  }

  /** Handles that unlinking item x detaches: those resting on x and those of x itself. */
  function Detached(s: State, x: ItemId): set<HandleRef>
  {
    set h | h in s.connectedTo && (s.connectedTo[h] == x || h.line == x)
  }

  /** Annotations made by the comment lines that own one of the handles hs. */
  function DroppedBy(s: State, hs: set<HandleRef>): set<Pair>
  {
    set h | h in hs && IsCommentLine(s, h.line) && Annotation(s, h.line).Some? :: Annotation(s, h.line).value
  }

  /** Annotations made by the comment lines that lose a handle when x is unlinked. */
  function Dropped(s: State, x: ItemId): set<Pair>
  {
    DroppedBy(s, Detached(s, x))
  }

  /** Dropping one more comment-line handle drops that line's annotation as well. */
  lemma DroppedByStep(s: State, done: set<HandleRef>, h: HandleRef)
    requires IsCommentLine(s, h.line)
    ensures DroppedBy(s, done + {h}) == DroppedBy(s, done) + AnnotationSet(s, h.line)
  {
    if Annotation(s, h.line).Some? {
      assert Annotation(s, h.line).value in DroppedBy(s, done + {h});
    }
  }

  /** No relationship end rests on x: unlinking x cascades through comment lines only. */
  predicate OnlyCommentLinesOn(s: State, x: ItemId)
  {
    forall h :: h in s.connectedTo && s.connectedTo[h] == x ==> IsCommentLine(s, h.line)
  }

  /**
   * item.unlink(): every comment line resting on x, and x's own handles, are
   * disconnected (their annotations removed first), then x and its subject go.
   */
  function Unlink(s: State, x: ItemId): (r: State)
    requires x in s.kind && OnlyCommentLinesOn(s, x)
    ensures x !in r.kind && x !in r.subject
    ensures forall h :: h in r.connectedTo ==> r.connectedTo[h] != x && h.line != x
    ensures forall h :: h in s.connectedTo && h !in Detached(s, x) ==> Target(r, h) == Target(s, h)
    ensures r.annotated == s.annotated - Dropped(s, x) && r.owned == s.owned - Flipped(Dropped(s, x))
    ensures r.kind == s.kind - {x} && r.subject == s.subject - {x}
    ensures r.connectedTo == s.connectedTo - Detached(s, x) && r.connectionData == s.connectionData - Detached(s, x)
    ensures r.nextItem == s.nextItem && r.nextElement == s.nextElement
  {
    var d := Detached(s, x);
    var dropped := Dropped(s, x);
    s.(kind := s.kind - {x}, subject := s.subject - {x},
       connectedTo := s.connectedTo - d, connectionData := s.connectionData - d,
       annotated := s.annotated - dropped, owned := s.owned - Flipped(dropped))
  }

  /** Unlinking an item on which only comment lines rest keeps the diagram valid. */
  lemma UnlinkValid(s: State, x: ItemId)
    requires Valid(s) && x in s.kind && OnlyCommentLinesOn(s, x)
    ensures Valid(Unlink(s, x))
  {
    var d := Detached(s, x);
    var r := Unlink(s, x);
    FlippedMinus(s.annotated, Dropped(s, x));
    assert forall h :: h in r.connectedTo ==> h.line in r.kind && r.connectedTo[h] in r.kind;
    forall rel | rel in r.subject && r.kind[rel] == Relationship ensures EndsOnElements(r, rel) {
      assert EndsOnElements(s, rel);
      assert HandleRef(rel, Head) !in d && HandleRef(rel, Tail) !in d;
    }
  }

  // ---- Properties relating several operations ----

  /** Gluing a comment-line end to the item its other end rests on is refused. */
  lemma {:induction false} SameTargetRefused(s: State, line: ItemId, end: End, target: ItemId, port: nat)
    requires IsCommentLine(s, line)
    requires ConnectCommentLine(s, line, end, target, port).0
    ensures var s1 := ConnectCommentLine(s, line, end, target, port).1;
      !GlueCommentLine(s1, line, end.Other(), target) &&
      ConnectCommentLine(s1, line, end.Other(), target, port) == (false, s1)
  {
    var s1 := ConnectCommentLine(s, line, end, target, port).1;
    assert end.Other().Other() == end;
    assert Target(s1, HandleRef(line, end)) == Some(target);
  }

  /** With its other end free, connecting one end of a comment line changes no annotation. */
  lemma OneEndNoAnnotation(s: State, line: ItemId, end: End, target: ItemId, port: nat)
    requires IsCommentLine(s, line)
    requires HandleRef(line, end.Other()) !in s.connectedTo
    ensures ConnectCommentLine(s, line, end, target, port).1.annotated == s.annotated
    ensures ConnectCommentLine(s, line, end, target, port).1.owned == s.owned
  {
    var h := HandleRef(line, end);
    if GlueCommentLine(s, line, end, target) {
      var s1 := DisconnectCommentLine(s, line, end);
      var s2 := s1.(connectedTo := s1.connectedTo[h := target],
                    connectionData := s1.connectionData[h := ConnectionData(port)]);
      assert Annotation(s, line) == None;
      assert s1.annotated == s.annotated && s1.owned == s.owned;
      assert HandleRef(line, end.Other()) != h;
      assert Target(s2, HandleRef(line, end.Other())) == None by {
        if end == Head { assert HandleRef(line, Tail) !in s2.connectedTo; }
        else { assert HandleRef(line, Head) !in s2.connectedTo; }
      }
      assert Annotation(s2, line) == None by {
        if end == Head { assert Target(s2, HandleRef(line, Tail)) == None; }
        else { assert Target(s2, HandleRef(line, Head)) == None; }
      }
    }
  }

  /**
   * A comment line with one end on a comment item and the other on an item
   * with a subject links exactly that pair, on both sides.
   */
  lemma {:induction false} CommentToElementLinks(s: State, line: ItemId, comment: ItemId, elem: ItemId, port: nat)
    requires Valid(s) && IsCommentLine(s, line)
    requires ConnectCommentLine(s, line, Head, comment, port).0
    requires Annotates(s, comment, elem) && comment != elem
    ensures var s1 := ConnectCommentLine(s, line, Head, comment, port).1;
      var s2 := ConnectCommentLine(s1, line, Tail, elem, port);
      s2.0 &&
      s2.1.annotated == s1.annotated - (if Annotation(s1, line).Some? then {Annotation(s1, line).value} else {})
                        + {(s.subject[comment], s.subject[elem])} &&
      s.subject[elem] in AnnotatedElement(s2.1, s.subject[comment]) &&
      s.subject[comment] in OwnedComment(s2.1, s.subject[elem])
  {
    var s1 := ConnectCommentLine(s, line, Head, comment, port).1;
    var s2 := ConnectCommentLine(s1, line, Tail, elem, port);
    assert GlueCommentLine(s1, line, Tail, elem);
    var t := HandleRef(line, Tail);
    var d := DisconnectCommentLine(s1, line, Tail);
    var d2 := d.(connectedTo := d.connectedTo[t := elem], connectionData := d.connectionData[t := ConnectionData(port)]);
    assert Target(d2, HandleRef(line, Head)) == Some(comment);
    assert Annotation(d2, line) == Some((s.subject[comment], s.subject[elem]));
    assert d.annotated == s1.annotated - (if Annotation(s1, line).Some? then {Annotation(s1, line).value} else {}) by {
      if t !in s1.connectedTo { assert Annotation(s1, line) == None; }
    }
    ConnectValid(s, line, Head, comment, port);
    ConnectValid(s1, line, Tail, elem, port);
    TwoSided(s2.1, s.subject[comment], s.subject[elem]);
  }

  /** Connecting a free comment-line handle is attaching it and then linking. */
  lemma ConnectFreeHandle(s: State, line: ItemId, end: End, target: ItemId, port: nat)
    requires IsCommentLine(s, line)
    requires HandleRef(line, end) !in s.connectedTo && GlueCommentLine(s, line, end, target)
    ensures ConnectCommentLine(s, line, end, target, port) == (true, Link(Attach(s, HandleRef(line, end), target, port), line))
  {
    assert DisconnectCommentLine(s, line, end) == s;
  }

  /** Connecting one end of a free comment line only attaches that end. */
  lemma ConnectFirstEnd(s: State, line: ItemId, end: End, target: ItemId, port: nat)
    requires IsCommentLine(s, line) && target in s.kind
    requires HandleRef(line, Head) !in s.connectedTo && HandleRef(line, Tail) !in s.connectedTo
    ensures ConnectCommentLine(s, line, end, target, port) == (true, Attach(s, HandleRef(line, end), target, port))
  {
    var other := HandleRef(line, end.Other());
    assert Target(s, other) == None;
    ConnectFreeHandle(s, line, end, target, port);
    var a := Attach(s, HandleRef(line, end), target, port);
    assert other != HandleRef(line, end);
    assert other !in a.connectedTo;
    FreeEndNoAnnotation(a, line, end.Other());
  }

  /** Connecting the two ends of a free comment line gives the same state in either order. */
  lemma {:induction false} ConnectOrderIndependent(s: State, line: ItemId, a: ItemId, b: ItemId, pa: nat, pb: nat)
    requires IsCommentLine(s, line)
    requires HandleRef(line, Head) !in s.connectedTo && HandleRef(line, Tail) !in s.connectedTo
    requires a in s.kind && b in s.kind && a != b
    ensures var hs := ConnectCommentLine(s, line, Head, a, pa);
      var ht := ConnectCommentLine(hs.1, line, Tail, b, pb);
      var ts := ConnectCommentLine(s, line, Tail, b, pb);
      var th := ConnectCommentLine(ts.1, line, Head, a, pa);
      hs.0 && ht.0 && ts.0 && th.0 && ht.1 == th.1
  {
    var H, T := HandleRef(line, Head), HandleRef(line, Tail);
    ConnectFirstEnd(s, line, Head, a, pa);
    ConnectFirstEnd(s, line, Tail, b, pb);
    var sa := Attach(s, H, a, pa);
    var sb := Attach(s, T, b, pb);
    assert Target(sa, H) == Some(a) && T !in sa.connectedTo;
    assert Target(sb, T) == Some(b) && H !in sb.connectedTo;
    ConnectFreeHandle(sa, line, Tail, b, pb);
    ConnectFreeHandle(sb, line, Head, a, pa);
    AttachCommutes(s, H, a, pa, T, b, pb);
  }

  /** Disconnecting twice is the same as disconnecting once. */
  lemma DisconnectIdempotent(s: State, line: ItemId, end: End)
    requires IsCommentLine(s, line)
    ensures DisconnectCommentLine(DisconnectCommentLine(s, line, end), line, end) == DisconnectCommentLine(s, line, end)
  {
  }

  /** The annotation a line implies, as a set of at most one pair. */
  function AnnotationSet(s: State, line: ItemId): set<Pair>
  {
    if Annotation(s, line).Some? then {Annotation(s, line).value} else {}
  }

  lemma RemoveUpdated<K, V>(m: map<K, V>, k: K, v: V)
    requires k !in m
    ensures m[k := v] - {k} == m
  {
  }

  /** Linking adds the line's annotation to both sides. */
  lemma LinkForm(s: State, line: ItemId)
    ensures Link(s, line) == s.(annotated := s.annotated + AnnotationSet(s, line),
                                owned := s.owned + Flipped(AnnotationSet(s, line)))
  {
    match Annotation(s, line) {
      case None =>
        assert Flipped({}) == {};
      case Some(p) =>
        assert Flipped({p}) == {Flip(p)} by { assert Flip(p) in Flipped({p}); }
    }
  }

  /** Disconnecting a handle just connected restores the handles and removes the link it made. */
  lemma DisconnectAfterConnect(s: State, line: ItemId, end: End, target: ItemId, port: nat)
    requires IsCommentLine(s, line) && s.connectedTo.Keys == s.connectionData.Keys
    requires HandleRef(line, end) !in s.connectedTo && GlueCommentLine(s, line, end, target)
    ensures var a := Attach(s, HandleRef(line, end), target, port);
      var gone := AnnotationSet(a, line);
      DisconnectCommentLine(Link(a, line), line, end) ==
        s.(annotated := s.annotated - gone, owned := s.owned - Flipped(gone))
  {
    var h := HandleRef(line, end);
    var a := Attach(s, h, target, port);
    LinkForm(a, line);
    var l := Link(a, line);
    AnnotationFrame(a, l, line);
    var gone := AnnotationSet(a, line);
    assert AnnotationSet(l, line) == gone;
    RemoveUpdated(s.connectedTo, h, target);
    RemoveUpdated(s.connectionData, h, ConnectionData(port));
    assert s.annotated + gone - gone == s.annotated - gone;
    assert s.owned + Flipped(gone) - Flipped(gone) == s.owned - Flipped(gone);
  }

  /** Connect, disconnect, connect again to the same item: the state after the first connect, no duplicate, no leak. */
  lemma {:induction false} ReconnectRestores(s: State, line: ItemId, end: End, target: ItemId, port: nat)
    requires IsCommentLine(s, line) && s.connectedTo.Keys == s.connectionData.Keys
    requires HandleRef(line, end) !in s.connectedTo
    requires GlueCommentLine(s, line, end, target)
    ensures var s1 := ConnectCommentLine(s, line, end, target, port).1;
      var s2 := DisconnectCommentLine(s1, line, end);
      s2.connectedTo == s.connectedTo && s2.connectionData == s.connectionData &&
      ConnectCommentLine(s2, line, end, target, port) == (true, s1)
  {
    var h := HandleRef(line, end);
    ConnectFreeHandle(s, line, end, target, port);
    DisconnectAfterConnect(s, line, end, target, port);
    var a := Attach(s, h, target, port);
    var s1 := Link(a, line);
    var s2 := DisconnectCommentLine(s1, line, end);
    var gone := AnnotationSet(a, line);
    assert s2 == s.(annotated := s.annotated - gone, owned := s.owned - Flipped(gone));
    assert GlueCommentLine(s2, line, end, target) by {
      assert Target(s2, HandleRef(line, end.Other())) == Target(s, HandleRef(line, end.Other()));
    }
    ConnectFreeHandle(s2, line, end, target, port);
    var a2 := Attach(s2, h, target, port);
    assert a2 == a.(annotated := s2.annotated, owned := s2.owned);
    AnnotationFrame(a, a2, line);
    match Annotation(a, line) {
      case None =>
        assert gone == {} && Flipped(gone) == {};
        assert s1 == a && a2 == a;
      case Some(p) =>
        assert Flipped({p}) == {Flip(p)} by { assert Flip(p) in Flipped({p}); }
        assert s2.annotated + {p} == s1.annotated;
        assert s2.owned + {Flip(p)} == s1.owned;
    }
  }

  /** Unlinking a comment line removes the annotation it made, on both sides. */
  lemma {:induction false} UnlinkLineDropsAnnotation(s: State, line: ItemId)
    requires IsCommentLine(s, line) && OnlyCommentLinesOn(s, line)
    requires Annotation(s, line).Some?
    ensures var p := Annotation(s, line).value;
      p.1 !in AnnotatedElement(Unlink(s, line), p.0) && p.0 !in OwnedComment(Unlink(s, line), p.1)
  {
    var p := Annotation(s, line).value;
    assert HandleRef(line, Head) in Detached(s, line);
    assert p in Dropped(s, line);
    assert Flip(p) in Flipped(Dropped(s, line));
  }

  /**
   * Unlinking an item removes every annotation made by a comment line resting
   * on it, and leaves no handle resting on it.
   */
  lemma {:induction false} UnlinkCascades(s: State, x: ItemId, line: ItemId, end: End)
    requires x in s.kind && OnlyCommentLinesOn(s, x)
    requires Target(s, HandleRef(line, end)) == Some(x) && Annotation(s, line).Some?
    ensures Annotation(s, line).value !in Unlink(s, x).annotated
    ensures HandleRef(line, end) !in Unlink(s, x).connectedTo
    ensures x !in Unlink(s, x).subject
  {
    assert HandleRef(line, end) in Detached(s, x);
    assert IsCommentLine(s, line);
    assert Annotation(s, line).value in Dropped(s, x);
  }

  /** A relationship has a subject only once both of its ends rest on element boxes. */
  lemma RelationshipSubjectNeedsBothEnds(s: State, rel: ItemId)
    requires Valid(s) && rel in s.kind && s.kind[rel] == Relationship
    ensures rel in s.subject ==> HandleRef(rel, Head) in s.connectedTo && HandleRef(rel, Tail) in s.connectedTo
  {
  }
}
