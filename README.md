# Gaphor named-item labels, text patterns and comment lines in Dafny

This project models three pieces of the Gaphor UML editor and proves their properties.

- **Label placement for named items** (`gaphor/diagram/nameditem.py`, `gaphor/diagram/align.py`).
  - An `ItemAlign` holds a horizontal alignment, a vertical alignment, an inside/outside flag and a CSS-ordered margin.
  - Six shared presets are built from it.
  - `NamedItem` overwrites the shared margin when it is constructed.
  - `NamedItem.on_update` places the name label. An inside label also sets the item's minimum size. An outside label sets bounds that enclose both the item and the label.
  - Coordinates are exact `real`s. The label's pixel size is a parameter.
- **Pattern text of a `TextElement`** (`gaphor/diagram/nameditem.py`).
  - `set_text` shows a value through a `prefix%ssuffix` pattern, or shows nothing.
  - `on_editable_editing_done` strips the prefix and suffix from typed text and writes the result to the subject inside one undo transaction.
  - `Named` writes a changed name the same way.
- **Comment-line connections** (`gaphor/adapters/tests/test_comment.py`).
  - The state is the diagram's items and handles, and the model's `annotatedElement`/`ownedComment` links.
  - `CommentConnection` gives glue, connect, disconnect, relationship connect and unlink as transitions of that state, and proves properties of them.
  - `CommentDiagram.Diagram` is the same state as an object whose methods update its fields in place. Each method is proved to reach the state the matching transition computes.
  - `CommentScenarios` replays each test on a fresh `Diagram`. The contract of each replay is what the test asserts.
  - `CommentConsistency` proves that every transition keeps each link backed by a comment line and keeps subjects distinct. Hence unlinking an item leaves no link that names its subject.

Files:
- `option.dfy`: Option.
- `align.dfy`: enums, `ItemAlign`, presets.
- `label_layout.dfy`: placement formulas and their properties.
- `named_item.dfy`: the `NamedItem` class.
- `text_pattern.dfy`: pattern rendering and stripping.
- `uml_element.dfy`: model element and undo trace.
- `text_element.dfy`: the `TextElement` class.
- `comment_state.dfy`: connection state and transitions.
- `comment_diagram.dfy`: the diagram object.
- `comment_scenarios.dfy`: the test scenarios.
- `comment_consistency.dfy`: every link has a comment line behind it, and unlinking cascades completely.

## Model

| member | source | states |
|---|---|---|
| Align.HCode | gaphor/diagram/align.py:10 | LEFT, CENTER, RIGHT are codes below 3 |
| Align.VCode | gaphor/diagram/align.py:13 | TOP, MIDDLE, BOTTOM are codes below 3 |
| Align.MarginCode | gaphor/diagram/align.py:17 | margin indices are codes below 4 |
| Align.CodesAreRanges | gaphor/diagram/align.py:10-17 | each enum's codes are distinct and exactly 0..2; margin indices are TOP=0, RIGHT=1, BOTTOM=2, LEFT=3 (CSS order) |
| Align.ZeroMargin | gaphor/diagram/align.py:29 | every margin entry is 0 |
| Align.Default | gaphor/diagram/align.py:29-32 | default alignment: zero margins, centre, top, inside |
| Align.Set | gaphor/diagram/align.py:35 | setattr gives the named attribute the value given, and the other three keep theirs |
| Align.Override | gaphor/diagram/align.py:34-35 | after the loop over the keywords, the last keyword given holds its value |
| Align.ItemAlign.constructor | gaphor/diagram/align.py:26-35 | the new object holds the defaults overridden by each keyword in turn |
| Align.OverrideSetsNamed | gaphor/diagram/align.py:34-35 | every keyword given sets its attribute to the value given |
| Align.OverrideKeepsOthers | gaphor/diagram/align.py:29-35 | every attribute no keyword names keeps its default |
| Align.PresetKwargs | gaphor/diagram/align.py:39-48 | each preset is built with keywords that name distinct attributes |
| Align.PresetsAsNamed | gaphor/diagram/align.py:39-48 | CT/C/CB are inside and centred with top/middle/bottom; O_LT is left/top, O_RB right/bottom, O_CB centre/bottom, all outside; all have zero margins |
| Align.AlignPresets.constructor | gaphor/diagram/align.py:39-48 | six distinct fresh objects, each holding its preset's value |
| LabelLayout.LabelX | gaphor/diagram/nameditem.py:331-361 | outside LEFT ends the label left-margin before 0 and RIGHT starts it right-margin after W; inside LEFT starts at the left margin and RIGHT ends right-margin before W; CENTER leaves equal space on both sides |
| LabelLayout.LabelY | gaphor/diagram/nameditem.py:341-370 | the same for TOP, BOTTOM and MIDDLE against the item height |
| LabelLayout.MinSize | gaphor/diagram/nameditem.py:351-352 | minimum width less the left and right margins is the label width; minimum height less the top and bottom margins is the label height |
| LabelLayout.OutsideBounds | gaphor/diagram/nameditem.py:376-379 | bounds contain the item rectangle and the label rectangle, and lie within every rectangle containing both |
| LabelLayout.InsideLabelFits | gaphor/diagram/nameditem.py:351-370 | on an item at least its minimum size, an inside label lies within the item and keeps its margin on the aligned side |
| LabelLayout.CenteredLabelKeepsEqualMargins | gaphor/diagram/nameditem.py:354-357 | a centred label with equal left and right margins stays within them |
| LabelLayout.OutsideLabelClearsItem | gaphor/diagram/nameditem.py:331-348 | with non-negative margins, an outside label aligned to a side does not overlap the item on that axis |
| NamedItems.ConstructionMargin | gaphor/diagram/nameditem.py:297-300 | outside gives margin (2,2,2,2); inside gives top/bottom 15 and left/right 30 |
| NamedItems.NamedItem.constructor | gaphor/diagram/nameditem.py:295-315 | overwrites the shared alignment's margin and nothing else of it; default size is 120 x 60 |
| NamedItems.NamedItem.OnUpdate | gaphor/diagram/nameditem.py:326-379 | label at (LabelX, LabelY) with the label's size; inside sets the minimum size and keeps the bounds; outside keeps the minimum size and sets OutsideBounds |
| NamedItems.NamedItem.PlaceX | gaphor/diagram/nameditem.py:331-361 | the horizontal case split computes LabelX |
| NamedItems.NamedItem.PlaceY | gaphor/diagram/nameditem.py:341-370 | the vertical case split computes LabelY |
| NamedItems.NamedItem.OnSubjectNotify | gaphor/diagram/nameditem.py:223-237 | the label shows the subject's non-empty name, else empty text |
| NamedItems.NamedItem.EditingDone | gaphor/diagram/nameditem.py:251-255 | the name becomes the typed text; it is written, inside Begin/Commit, only when it differs from the current name; otherwise nothing changes; a trace whose writes were all bracketed stays so |
| TextPattern.Split | gaphor/diagram/nameditem.py:154 | splitting on "%s" yields at least one piece, none of which holds "%s"; the first piece is a prefix of the pattern |
| TextPattern.JoinSplit | gaphor/diagram/nameditem.py:154 | joining the pieces with "%s" gives the pattern back |
| TextPattern.PatternParts | gaphor/diagram/nameditem.py:154 | a single-slot pattern is prefix + "%s" + suffix; it is '%s' exactly when both are empty |
| TextPattern.DefaultPatternIsSingleSlot | gaphor/diagram/nameditem.py:44 | the default pattern '%s' has an empty prefix and suffix |
| TextPattern.Format | gaphor/diagram/nameditem.py:84 | `pattern % txt`: the value sits between the prefix and the suffix, and the length is the sum of the three |
| TextPattern.Displayed | gaphor/diagram/nameditem.py:83-86 | the text is empty exactly when the value is missing, empty or the default; otherwise it starts with the prefix and has the length of prefix, value and suffix |
| TextPattern.DropLastAsWritten | gaphor/diagram/nameditem.py:158 | Python's t[:-n]: empty for n = 0, t without its last n characters otherwise |
| TextPattern.DropLast | gaphor/diagram/nameditem.py:158 | drops exactly the last n characters, and the two parts rebuild t |
| TextPattern.StripAsWritten | gaphor/diagram/nameditem.py:152-158 | the stored text as the code computes it: the corrected stripping when the suffix is non-empty, and '' when the pattern ends in '%s' and the text starts with the prefix |
| TextPattern.Strip | gaphor/diagram/nameditem.py:152-158 | stripping never lengthens the text, and the pattern '%s' strips nothing |
| TextPattern.StripRemovesPattern | gaphor/diagram/nameditem.py:155-158 | what stripping leaves is the text between the prefix and the suffix, or '' when the two overlap in the typed text |
| TextPattern.FormatWearsPattern | gaphor/diagram/nameditem.py:84 | a formatted value starts with the prefix and ends with the suffix |
| TextPattern.StripLeavesUnpatterned | gaphor/diagram/nameditem.py:152-158 | typed text without the prefix and suffix is stored unchanged |
| TextPattern.StripDefaultPattern | gaphor/diagram/nameditem.py:152 | with the pattern '%s' nothing is stripped |
| TextPattern.StripAsWrittenRoundTrip | gaphor/diagram/nameditem.py:152-158 | as written, stripping prefix+x+suffix gives x when the suffix is non-empty and '' when it is empty |
| TextPattern.StripAsWrittenLosesValue | gaphor/diagram/nameditem.py:155-158 | pattern 'guard %s' with typed 'guard x' stores '' as written, and 'x' when corrected |
| TextPattern.StripFormat | gaphor/diagram/nameditem.py:152-158 | corrected stripping undoes formatting for every single-slot pattern |
| TextPattern.FormatStrip | gaphor/diagram/nameditem.py:152-158 | typed text wearing the pattern around a value is that value formatted |
| TextPattern.EditDisplayedRoundTrip | gaphor/diagram/nameditem.py:83-158 | editing the shown text unchanged stores the shown value back |
| Uml.Element.Set | gaphor/diagram/nameditem.py:162 | setattr changes that attribute only |
| Uml.UndoManager.BeginTransaction | gaphor/diagram/nameditem.py:160 | appends Begin to the trace |
| Uml.UndoManager.CommitTransaction | gaphor/diagram/nameditem.py:163 | appends Commit to the trace |
| Uml.UndoManager.Record | gaphor/diagram/nameditem.py:162 | appends the write to the trace |
| Uml.BracketedAppend | gaphor/diagram/nameditem.py:160-163 | a write between Begin and Commit keeps every write of the trace bracketed |
| TextElements.TextSize | gaphor/diagram/nameditem.py:122 | each dimension is the larger of the pixel size and 10 |
| TextElements.TextElement.constructor | gaphor/diagram/nameditem.py:44-72 | stores attribute, pattern and default; shows the border when selected |
| TextElements.TextElement.SetText | gaphor/diagram/nameditem.py:79-87 | the label text is the displayed text for the value; empty exactly when the value is not shown |
| TextElements.TextElement.Shapes | gaphor/diagram/nameditem.py:125-133 | no shapes without a subject; otherwise the text first, then the border exactly when selected with the border shown (two shapes), else one |
| TextElements.TextElement.OnSubjectNotify | gaphor/diagram/nameditem.py:167-178 | with a subject the label shows its attribute through the pattern; without one it is empty |
| TextElements.TextElement.EditingDone | gaphor/diagram/nameditem.py:145-163 | with a subject the stripped text is written inside one Begin/Commit; without one nothing changes; a trace whose writes were all bracketed stays so |
| CommentConnection.Empty | gaphor/adapters/tests/test_comment.py:10 | an empty diagram satisfies the invariant |
| CommentConnection.TwoSided | gaphor/adapters/tests/test_comment.py:81-82 | e is in c's annotatedElement exactly when c is in e's ownedComment |
| CommentConnection.Create | gaphor/adapters/tests/test_comment.py:14-15 | a new item id; a box gets a fresh subject with no links; a line gets none; handles, their connection data and the links on both sides are unchanged |
| CommentConnection.CreateValid | gaphor/adapters/tests/test_comment.py:14-15 | creating an item keeps the invariant |
| CommentConnection.AttachCommutes | gaphor/adapters/tests/test_comment.py:172-196 | attaching two different handles commutes |
| CommentConnection.Annotation | gaphor/adapters/tests/test_comment.py:41-45 | a line implies a link exactly when both ends rest on items with subjects, one of them a comment item; the link is (that comment's subject, the other end's subject) |
| CommentConnection.GlueCommentLine | gaphor/adapters/tests/test_comment.py:29-31 | a comment-line end glues to any item while the other end is free, and never to the item the other end rests on |
| CommentConnection.Link | gaphor/adapters/tests/test_comment.py:81-82 | only the links change, none is removed, and afterwards the line's link is in annotatedElement and, flipped, in ownedComment |
| CommentConnection.FreeEndNoAnnotation | gaphor/adapters/tests/test_comment.py:17-20 | a comment line with a free end links nothing |
| CommentConnection.DisconnectCommentLine | gaphor/adapters/tests/test_comment.py:200-204 | the handle is free and its data gone; the link its line made is removed on both sides; other handles keep their targets; a free handle changes nothing |
| CommentConnection.DisconnectValid | gaphor/adapters/tests/test_comment.py:60-61 | disconnect keeps the invariant |
| CommentConnection.LinkValid | gaphor/adapters/tests/test_comment.py:41-45 | adding a line's link keeps the invariant |
| CommentConnection.ConnectCommentLine | gaphor/adapters/tests/test_comment.py:17-31 | refused exactly when glue refuses, and then nothing changes; on success the handle rests on the target with its connection data, and other handles keep their targets |
| CommentConnection.ConnectValid | gaphor/adapters/tests/test_comment.py:41-45 | connecting a comment line keeps the invariant |
| CommentConnection.ConnectRelationship | gaphor/adapters/tests/test_comment.py:97-107 | glue accepts only element boxes; on success the handle rests on the target with its connection data and every other handle is unchanged; the relationship has a subject exactly when both ends rest on element boxes, and that subject is new; links and every other item's subject are unchanged |
| CommentConnection.GlueRelationship | gaphor/adapters/tests/test_comment.py:101-107 | a relationship end glues only to an item box, never to a comment or to a line |
| CommentConnection.ConnectRelationshipValid | gaphor/adapters/tests/test_comment.py:97-107 | connecting a relationship end keeps the invariant |
| CommentConnection.DroppedByStep | gaphor/adapters/tests/test_comment.py:84 | dropping one more comment-line handle drops its line's link too |
| CommentConnection.Unlink | gaphor/adapters/tests/test_comment.py:84-87 | the item and its subject go and every other item and subject stays; exactly the handles resting on it or belonging to it are cleared, with their connection data; the links of the detached comment lines are removed on both sides |
| CommentConnection.UnlinkValid | gaphor/adapters/tests/test_comment.py:127-130 | unlink keeps the invariant |
| CommentConnection.SameTargetRefused | gaphor/adapters/tests/test_comment.py:29-31 | the other end may not glue or connect to the item one end rests on |
| CommentConnection.OneEndNoAnnotation | gaphor/adapters/tests/test_comment.py:17-20 | connecting one end of a line whose other end is free changes no link |
| CommentConnection.CommentToElementLinks | gaphor/adapters/tests/test_comment.py:41-45 | head on a comment, then tail on an element, links exactly that pair, on both sides |
| CommentConnection.ConnectFreeHandle | gaphor/adapters/tests/test_comment.py:41-42 | connecting a free handle is attaching it and adding its line's link |
| CommentConnection.ConnectFirstEnd | gaphor/adapters/tests/test_comment.py:17-19 | connecting one end of a free line only attaches it |
| CommentConnection.ConnectOrderIndependent | gaphor/adapters/tests/test_comment.py:172-196 | connecting the head then the tail gives the same state as the tail then the head |
| CommentConnection.DisconnectIdempotent | gaphor/adapters/tests/test_comment.py:200-204 | disconnecting twice is disconnecting once |
| CommentConnection.LinkForm | gaphor/adapters/tests/test_comment.py:81-82 | linking adds the line's link to annotatedElement and, flipped, to ownedComment |
| CommentConnection.DisconnectAfterConnect | gaphor/adapters/tests/test_comment.py:200-204 | disconnect after connect restores the handles and removes exactly the link the connect made |
| CommentConnection.ReconnectRestores | gaphor/adapters/tests/test_comment.py:206-210 | connect, disconnect, connect again gives the state after the first connect |
| CommentConnection.UnlinkLineDropsAnnotation | gaphor/adapters/tests/test_comment.py:84-87 | unlinking a comment line removes its link on both sides |
| CommentConnection.UnlinkCascades | gaphor/adapters/tests/test_comment.py:127-130 | unlinking an item removes the link of a comment line on it, frees that handle and removes the item's subject |
| CommentConnection.RelationshipSubjectNeedsBothEnds | gaphor/adapters/tests/test_comment.py:101-109 | a relationship has a subject only when both its ends are connected |
| CommentDiagram.Diagram.constructor | gaphor/adapters/tests/test_comment.py:10 | the new diagram is the empty state |
| CommentDiagram.Diagram.Create | gaphor/adapters/tests/test_comment.py:14-15 | the diagram becomes the state Create computes |
| CommentDiagram.Diagram.DisconnectCommentLine | gaphor/adapters/tests/test_comment.py:60 | the diagram becomes the state DisconnectCommentLine computes |
| CommentDiagram.Diagram.ConnectCommentLine | gaphor/adapters/tests/test_comment.py:17 | result and diagram are those ConnectCommentLine computes |
| CommentDiagram.Diagram.ConnectRelationship | gaphor/adapters/tests/test_comment.py:101-107 | result and diagram are those ConnectRelationship computes |
| CommentDiagram.Diagram.Unlink | gaphor/adapters/tests/test_comment.py:84 | disconnecting the comment lines one at a time and removing the item gives the state Unlink computes |
| CommentDiagram.Diagram.DisconnectCommentHandles | gaphor/adapters/tests/test_comment.py:84 | afterwards exactly the comment-line handles unlink detaches are cleared, and exactly their lines' links are gone |
| CommentDiagram.UnlinkStep | gaphor/adapters/tests/test_comment.py:84 | disconnecting one more detached comment-line handle keeps the part-way unlink state |
| CommentDiagram.StepDrops | gaphor/adapters/tests/test_comment.py:84 | the link removed by that step is the one its line adds to those already dropped |
| CommentDiagram.UnlinkFinish | gaphor/adapters/tests/test_comment.py:84 | removing the item and its own handles after the loop completes unlink |
| CommentScenarios.CommentAndLine | gaphor/adapters/tests/test_comment.py:14-15 | a valid diagram with a comment and a free comment line, and no links |
| CommentScenarios.AnnotatedElementScenario | gaphor/adapters/tests/test_comment.py:11-20 | the head is connected and annotatedElement is empty |
| CommentScenarios.SameCommentGlueScenario | gaphor/adapters/tests/test_comment.py:23-31 | the tail does not glue to the comment the head rests on |
| CommentScenarios.CommentLineAndElement | gaphor/adapters/tests/test_comment.py:37-39 | a valid diagram with a comment, a free comment line and an element with distinct subjects |
| CommentScenarios.LinkCommentToElement | gaphor/adapters/tests/test_comment.py:41-42 | head to the comment and tail to the element: both handles set, exactly that pair linked |
| CommentScenarios.ElementConnectScenario | gaphor/adapters/tests/test_comment.py:34-45 | the tail rests on the actor; annotatedElement has one entry, the actor's subject |
| CommentScenarios.ElementDisconnectScenario | gaphor/adapters/tests/test_comment.py:48-61 | after disconnect the tail does not rest on the actor |
| CommentScenarios.CommentLineClassScenario | gaphor/adapters/tests/test_comment.py:64-87 | the link is on both sides; after unlinking the line annotatedElement and ownedComment are empty |
| CommentScenarios.UnlinkOnlyLink | gaphor/adapters/tests/test_comment.py:84-87 | unlinking the line that made the only link leaves no link on either side |
| CommentScenarios.TwoClassesAndRelationship | gaphor/adapters/tests/test_comment.py:96-98 | two class items and a free relationship line |
| CommentScenarios.TwoClassesJoined | gaphor/adapters/tests/test_comment.py:96-107 | head on one class, tail on the other, and the relationship has a subject |
| CommentScenarios.AddCommentAndLine | gaphor/adapters/tests/test_comment.py:111-112 | adds a comment with a fresh subject and a line, changing no handle or link |
| CommentScenarios.RelationshipAndComment | gaphor/adapters/tests/test_comment.py:96-112 | a joined relationship plus a comment and a free line |
| CommentScenarios.RelationshipLineFacts | gaphor/adapters/tests/test_comment.py:114-125 | only the comment line rests on the relationship, and it links comment and relationship subjects |
| CommentScenarios.RelationshipUnlinkScenario | gaphor/adapters/tests/test_comment.py:88-130 | the link is on both sides; after unlinking the generalization annotatedElement is empty and it has no subject |
| CommentScenarios.AssociationWithLineHead | gaphor/adapters/tests/test_comment.py:144-176 | an association between two classes with the line's head on it, the tail free, no link |
| CommentScenarios.AssociationHeadScenario | gaphor/adapters/tests/test_comment.py:163-184 | head on the association with connection data and no link; the tail then stays free and no link appears |
| CommentScenarios.AssociationTailLinks | gaphor/adapters/tests/test_comment.py:186-196 | tail onto the comment succeeds and links exactly (comment, association) |
| CommentScenarios.AssociationLinked | gaphor/adapters/tests/test_comment.py:186-196 | head on the association, tail on the comment with data, exactly that pair linked |
| CommentScenarios.AssociationCommentScenario | gaphor/adapters/tests/test_comment.py:186-210 | tail on the comment with data and one annotated element, the association's subject; after disconnect the tail is free without data and nothing is annotated; connecting again succeeds and the tail rests on the comment again |
| CommentConsistency.EmptyConsistent | gaphor/adapters/tests/test_comment.py:10 | an empty diagram has no orphan link and distinct subjects |
| CommentConsistency.AnnotationLocal | gaphor/adapters/tests/test_comment.py:41-45 | a line's link depends only on the items its ends rest on, their kinds and their subjects |
| CommentConsistency.CreateKeepsAnnotation | gaphor/adapters/tests/test_comment.py:14-15 | creating an item changes no comment line's link |
| CommentConsistency.CreateConsistent | gaphor/adapters/tests/test_comment.py:14-15 | creating an item keeps every link backed by a comment line and the subjects distinct |
| CommentConsistency.DisconnectConsistent | gaphor/adapters/tests/test_comment.py:60-61 | disconnecting a comment-line end keeps every remaining link backed by a comment line |
| CommentConsistency.ConnectConsistent | gaphor/adapters/tests/test_comment.py:41-45 | connecting a comment-line end keeps every link backed by a comment line |
| CommentConsistency.RelationshipKeepsAnnotation | gaphor/adapters/tests/test_comment.py:101-107 | connecting a relationship end changes no comment line's link |
| CommentConsistency.RelationshipSubjectInjective | gaphor/adapters/tests/test_comment.py:101-109 | the subject a relationship gets is not the subject of any other item |
| CommentConsistency.ConnectRelationshipConsistent | gaphor/adapters/tests/test_comment.py:101-107 | connecting a relationship end keeps every link backed by a comment line and the subjects distinct |
| CommentConsistency.SubjectAfterLineNotLinked | gaphor/adapters/tests/test_comment.py:137-140 | a comment line already on a relationship is not linked when the relationship later gets its subject: the line then implies (comment, relationship), and annotatedElement lacks that pair |
| CommentConsistency.SurvivingLink | gaphor/adapters/tests/test_comment.py:84-87 | a link that survives unlink comes from a comment line none of whose handles unlink detached |
| CommentConsistency.UnlinkConsistent | gaphor/adapters/tests/test_comment.py:127-130 | unlinking an item keeps every surviving link backed by a comment line |
| CommentConsistency.UnlinkLeavesNoMention | gaphor/adapters/tests/test_comment.py:127-130 | after unlink no pair in annotatedElement or ownedComment names the unlinked item's subject |

## Left out

- Rendering: pango fonts and text shapes, borders (`draw_border`, `create_border`'s path), `expand_bounds`, affine updates and `on_point` distances. The label's pixel size is a parameter of `OnUpdate` and `TextSize`.
- `NamedItems.NamedItem.OnUpdate`: coordinates are exact reals, and the centring division is exact. The source computes in floating point. When both sizes are integers, Python 2 `/` floors instead: `(10 - 15) / 2 == -3` for a centred label wider than its item, where the model gives -2.5. Neither rounding is modelled.
- `ElementItem`'s own handling of `min_width`/`min_height` (clamping the size) is not part of this model. `OnUpdate` records the minimum size that is requested.
- GObject signal plumbing, `request_update`, the dynamically named `on_subject_notify__<attr>` callback and double-click renaming are not modelled.
- `TextElements.TextElement.SetText`: requires a pattern whose only `%` is its one `%s`. Patterns with other conversions or with `%%` are not modelled. Python accepts some of them. `'%s%%' % 'x'` shows `'x%'`, and `split('%s')` gives `['', '%%']`, so stripping would store `'x%'` back, not `'x'`; the model does not capture that round-trip failure. `'%d %s'` splits into two pieces, but formatting a string with it raises.
- `TextElements.TextElement.EditingDone`: uses the corrected stripping (see Findings). The as-written slice is modelled by `TextPattern.StripAsWritten`.
- `NamedItems.NamedItem.EditingDone`: requires a subject, because the source reads `self.subject.name` unguarded.
- Attribute values are optional strings. Non-string attribute values are not modelled.
- Undo transactions are a trace of Begin, Write and Commit events. The undo manager's own behaviour is not modelled.
- Connection adapters and the adapter registry (`queryMultiAdapter`, `gaphor.adapters.connectors`) are not part of this model. Their behaviour is taken from the tests' assertions: a comment line links (comment subject, other subject) once one end rests on a comment item and the other on an item with a subject.
- `connection_data` is the port index connected to. Port geometry and the glue position (10, 50) are not modelled.
- Test line 20 asserts `annotatedElement is None`; the model reads an unset association as the empty set.
- `CommentConnection.Unlink`: requires that no relationship end rests on the item being unlinked. The tests unlink only comment lines and relationships with nothing but comment lines on them.
- Disconnecting and reconnecting relationship ends are not modelled. So the second open case of test_commentline_association (lines 141-142) is not modelled.
- `CommentConnection.ConnectRelationship`: never adds a link. Suppose a comment line already rests on a relationship without a subject, and the relationship later gets one. The comment is then not linked to it, which `CommentConsistency.SubjectAfterLineNotLinked` states. The test's docstring lists this as open case 1 (lines 137-140) and says the link should be made. The tests assert nothing about it.
- `CommentConnection.DisconnectCommentLine`: removes the line's link even if another comment line implies the same pair. The tests never build two lines between the same items.
- Handle positions (`line.head.pos`) are not modelled.
- `gaphor/diagram/usecase.py` only selects the C preset and draws an ellipse; it is one instance of `NamedItem` placement.
- `tests/features/steps.py` (application start-up and file loading) is not part of this model.

## Findings

| source | as written | input that shows it | evidently intended | confidence | as-written member | corrected member |
|---|---|---|---|---|---|---|
| gaphor/diagram/nameditem.py:158 | `new_text[:-l2]` with an empty suffix (`l2 == 0`) is `new_text[:0]`, i.e. `''`, so the typed value is lost | pattern `'guard %s'`, typed text `'guard x'`: stores `''` | drop only the suffix, storing `'x'` | high; not executed | TextPattern.StripAsWrittenLosesValue | TextPattern.StripFormat |
