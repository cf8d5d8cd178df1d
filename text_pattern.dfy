/**
 * The '%s' text pattern of a TextElement (gaphor/diagram/nameditem.py):
 * rendering a value through the pattern, and stripping the pattern's
 * prefix and suffix off text the user typed.
 */
module TextPattern {
  import opened Optional

  /** No "%s" occurs in s. */
  predicate NoSlot(s: string)
  {
    forall i :: 0 <= i < |s| - 1 ==> !(s[i] == '%' && s[i + 1] == 's')
  }

  /**
   * str.split('%s'): the pieces between the occurrences of "%s". No piece
   * holds a "%s", and (JoinSplit) joining them with "%s" gives p back; the
   * first piece is the text before the first "%s".
   */
  function Split(p: string): (r: seq<string>)
    ensures |r| >= 1 && r[0] <= p
    ensures forall k :: 0 <= k < |r| ==> NoSlot(r[k])
    decreases |p|
  {
    if |p| < 2 then [p]
    else if p[0] == '%' && p[1] == 's' then [""] + Split(p[2..])
    else
      var rest := Split(p[1..]);
      var first := [p[0]] + rest[0];
      assert NoSlot(first) by {
        forall i | 0 <= i < |first| - 1 ensures !(first[i] == '%' && first[i + 1] == 's') {
          if i == 0 {
            assert first[1] == rest[0][0] == p[1];
          } else {
            assert first[i] == rest[0][i - 1] && first[i + 1] == rest[0][i];
          }
        }
      }
      [first] + rest[1..]
  }

  /** '%s'.join(pieces). */
  function Join(pieces: seq<string>): string
    requires |pieces| >= 1
    decreases |pieces|
  {
    if |pieces| == 1 then pieces[0] else pieces[0] + "%s" + Join(pieces[1..])
  }

  /** Splitting on "%s" and joining back with "%s" gives the pattern back. */
  lemma {:induction false} JoinSplit(p: string)
    ensures Join(Split(p)) == p
    decreases |p|
  {
    if |p| < 2 {
    } else if p[0] == '%' && p[1] == 's' {
      JoinSplit(p[2..]);
      assert [""] + Split(p[2..]) == Split(p);
      assert p == "%s" + p[2..];
    } else {
      var rest := Split(p[1..]);
      JoinSplit(p[1..]);
      if |rest| == 1 {
        assert p == [p[0]] + p[1..];
      } else {
        assert ([[p[0]] + rest[0]] + rest[1..])[1..] == rest[1..];
        assert p == [p[0]] + p[1..];
      }
    }
  }

  /**
   * A pattern whose only '%' is its single "%s" slot: then `pattern % txt`
   * is plain substitution and `pattern.split('%s')` yields the two pieces
   * the editing code unpacks.
   */
  predicate SingleSlot(p: string)
  {
    var pieces := Split(p);
    |pieces| == 2 && '%' !in pieces[0] && '%' !in pieces[1]
  }

  function Prefix(p: string): string
    requires SingleSlot(p)
  {
    Split(p)[0]
  }

  function Suffix(p: string): string
    requires SingleSlot(p)
  {
    Split(p)[1]
  }

  /** A single-slot pattern is its prefix, "%s" and its suffix. */
  lemma PatternParts(p: string)
    requires SingleSlot(p)
    ensures p == Prefix(p) + "%s" + Suffix(p)
    ensures p == "%s" <==> Prefix(p) == "" && Suffix(p) == ""
  {
    JoinSplit(p);
    assert Split(p)[1..] == [Suffix(p)];
  }

  /** The default pattern '%s' has the single slot and no text around it. */
  lemma DefaultPatternIsSingleSlot()
    ensures SingleSlot("%s") && Prefix("%s") == "" && Suffix("%s") == ""
  {
    assert Split("%s") == [""] + Split("");
  }

  /** `pattern % txt`. */
  function Format(p: string, txt: string): (r: string)
    requires SingleSlot(p)
    ensures |r| == |Prefix(p)| + |txt| + |Suffix(p)|
    ensures r[|Prefix(p)|..|r| - |Suffix(p)|] == txt
  {
    Prefix(p) + txt + Suffix(p)
  }

  /** set_text shows a value only when it is non-empty and not the default. */
  predicate Shown(txt: Option<string>, default: Option<string>)
  {
    txt.Some? && txt.value != "" && txt != default
  }

  /** The text set_text puts on the label for the value `txt`. */
  function Displayed(p: string, default: Option<string>, txt: Option<string>): (r: string)
    requires SingleSlot(p)
    ensures r == "" <==> !Shown(txt, default)
    ensures Shown(txt, default) ==> Prefix(p) <= r && |r| == |Prefix(p)| + |txt.value| + |Suffix(p)|
  {
    if Shown(txt, default) then Format(p, txt.value) else ""
  }

  /** str.endswith. */
  predicate EndsWith(t: string, s: string)
  {
    |s| <= |t| && t[|t| - |s|..] == s
  }

  /** Python's slice t[:-n] for n >= 0; note that -0 is 0, so t[:-0] is ''. */
  function DropLastAsWritten(t: string, n: nat): (r: string)
    ensures n == 0 ==> r == ""
    ensures n > 0 ==> r == t[..if n <= |t| then |t| - n else 0]
  {
    t[..if 0 < n <= |t| then |t| - n else 0]
  }

  /** Dropping the last n characters (all of them when there are fewer). */
  function DropLast(t: string, n: nat): (r: string)
    ensures n <= |t| ==> |r| == |t| - n && r + t[|t| - n..] == t
    ensures n > |t| ==> r == ""
  {
    t[..if n <= |t| then |t| - n else 0]
  }

  /** The value on_editable_editing_done stores, exactly as the code computes it. */
  function StripAsWritten(p: string, t: string): (r: string)
    requires SingleSlot(p)
    ensures Suffix(p) != "" ==> r == Strip(p, t)
    ensures p != "%s" && Prefix(p) <= t && Suffix(p) == "" ==> r == ""
  {
    if p != "%s" && Prefix(p) <= t && EndsWith(t, Suffix(p)) then
      DropLastAsWritten(t[|Prefix(p)|..], |Suffix(p)|)
    else t
  }

  /** The value that stripping evidently intends: prefix and suffix removed. */
  function Strip(p: string, t: string): (r: string)
    requires SingleSlot(p)
    ensures |r| <= |t|
    ensures p == "%s" ==> r == t
  {
    if p != "%s" && Prefix(p) <= t && EndsWith(t, Suffix(p)) then
      DropLast(t[|Prefix(p)|..], |Suffix(p)|)
    else t
  }

  /**
   * Stripping removes exactly the prefix and the suffix: what is left is the
   * text between them, or nothing when they overlap in the typed text.
   */
  lemma StripRemovesPattern(p: string, t: string)
    requires SingleSlot(p)
    ensures var r := Strip(p, t);
      r != t && |Prefix(p)| + |Suffix(p)| <= |t| ==> Prefix(p) + r + Suffix(p) == t
    ensures var r := Strip(p, t);
      r != t && |t| < |Prefix(p)| + |Suffix(p)| ==> r == ""
  {
    var s1, s2 := Prefix(p), Suffix(p);
    if p != "%s" && s1 <= t && EndsWith(t, s2) {
      var u := t[|s1|..];
      var r := DropLast(u, |s2|);
      assert Strip(p, t) == r;
      assert t == s1 + u;
      if |s2| <= |u| {
        assert u[|u| - |s2|..] == t[|t| - |s2|..] == s2;
        assert s1 + r + s2 == s1 + (r + u[|u| - |s2|..]);
      }
    }
  }

  /** Typed text that does not wear the pattern is stored as typed. */
  lemma StripLeavesUnpatterned(p: string, t: string)
    requires SingleSlot(p)
    requires !(Prefix(p) <= t && EndsWith(t, Suffix(p)))
    ensures StripAsWritten(p, t) == t && Strip(p, t) == t
  {
  }

  /** With the pattern '%s' nothing is stripped. */
  lemma StripDefaultPattern(t: string)
    ensures SingleSlot("%s") && StripAsWritten("%s", t) == t && Strip("%s", t) == t
  {
    DefaultPatternIsSingleSlot();
  }

  lemma FormatWearsPattern(p: string, x: string)
    requires SingleSlot(p)
    ensures Prefix(p) <= Format(p, x) && EndsWith(Format(p, x), Suffix(p))
    ensures Format(p, x)[|Prefix(p)|..] == x + Suffix(p)
  {
    var f := Format(p, x);
    assert f[..|Prefix(p)|] == Prefix(p);
    assert f[|f| - |Suffix(p)|..] == Suffix(p);
  }

  /** Round trip of the code as written: the value comes back only when the suffix is non-empty. */
  lemma StripAsWrittenRoundTrip(p: string, x: string)
    requires SingleSlot(p) && p != "%s"
    ensures Suffix(p) != "" ==> StripAsWritten(p, Format(p, x)) == x
    ensures Suffix(p) == "" ==> StripAsWritten(p, Format(p, x)) == ""
  {
    FormatWearsPattern(p, x);
    var rest := Format(p, x)[|Prefix(p)|..];
    assert rest[..|rest| - |Suffix(p)|] == x;
  }

  /** Text without '%' is a single piece. */
  lemma {:induction false} SplitNoPercent(s: string)
    requires '%' !in s
    ensures Split(s) == [s]
    decreases |s|
  {
    if |s| >= 2 {
      assert forall k :: 0 <= k < |s[1..]| ==> s[1..][k] == s[k + 1];
      SplitNoPercent(s[1..]);
      assert s == [s[0]] + s[1..];
    }
  }

  /** Any prefix and suffix free of '%' around "%s" make a single-slot pattern. */
  lemma {:induction false} SingleSlotOf(a: string, b: string)
    requires '%' !in a && '%' !in b
    ensures SingleSlot(a + "%s" + b) && Prefix(a + "%s" + b) == a && Suffix(a + "%s" + b) == b
    decreases |a|
  {
    var p := a + "%s" + b;
    if a == [] {
      assert p == "%s" + b && p[2..] == b;
      SplitNoPercent(b);
    } else {
      assert p[1..] == a[1..] + "%s" + b;
      assert forall k :: 0 <= k < |a[1..]| ==> a[1..][k] == a[k + 1];
      SingleSlotOf(a[1..], b);
      assert a == [a[0]] + a[1..];
    }
  }

  /** A concrete input: the pattern 'guard %s', typed text 'guard x', stores '' instead of 'x'. */
  lemma StripAsWrittenLosesValue()
    ensures SingleSlot("guard %s")
    ensures Format("guard %s", "x") == "guard x"
    ensures StripAsWritten("guard %s", "guard x") == ""
    ensures Strip("guard %s", "guard x") == "x"
  {
    var p := "guard %s";
    assert p == "guard " + "%s" + "";
    SingleSlotOf("guard ", "");
    assert Prefix(p) == "guard " && Suffix(p) == "";
    FormatWearsPattern(p, "x");
  }

  /** Round trip: stripping a formatted value gives the value back, for every pattern. */
  lemma StripFormat(p: string, x: string)
    requires SingleSlot(p)
    ensures Strip(p, Format(p, x)) == x
  {
    PatternParts(p);
    if p == "%s" {
      DefaultPatternIsSingleSlot();
    } else {
      FormatWearsPattern(p, x);
      var rest := Format(p, x)[|Prefix(p)|..];
      assert rest[..|rest| - |Suffix(p)|] == x;
    }
  }

  /** The other direction: typed text that wears the pattern around a value is that value formatted. */
  lemma FormatStrip(p: string, t: string)
    requires SingleSlot(p) && p != "%s"
    requires Prefix(p) <= t && EndsWith(t, Suffix(p)) && |Prefix(p)| + |Suffix(p)| <= |t|
    ensures Format(p, Strip(p, t)) == t
  {
    var s1, s2 := Prefix(p), Suffix(p);
    var n1, n2 := |s1|, |s2|;
    var u := t[n1..];
    var mid := DropLast(u, n2);
    assert Strip(p, t) == mid;
    assert mid == u[..|u| - n2] == t[n1..|t| - n2];
    assert t[..n1] == s1 && t[|t| - n2..] == s2;
    assert t == t[..n1] + t[n1..|t| - n2] + t[|t| - n2..];
  }

  /** Editing shown text and storing it restores the displayed value. */
  lemma EditDisplayedRoundTrip(p: string, default: Option<string>, x: string)
    requires SingleSlot(p)
    requires Shown(Some(x), default)
    ensures Strip(p, Displayed(p, default, Some(x))) == x
  {
    StripFormat(p, x);
  }
}
