/**
 * Alignment constants and the ItemAlign record of gaphor/diagram/align.py:
 * horizontal and vertical alignment enums, the CSS-ordered margin indices,
 * ItemAlign with its defaults and keyword overrides, and the six presets.
 */
module Align {

  /** Horizontal alignment; the source encodes it as range(3). */
  datatype HAlign = Left | Center | Right

  /** Vertical alignment; the source encodes it as range(3). */
  datatype VAlign = Top | Middle | Bottom

  /** Indices into a margin tuple, in CSS order. */
  datatype MarginIndex = MarginTop | MarginRight | MarginBottom | MarginLeft

  function HCode(h: HAlign): (r: nat)
    ensures r < 3
  {
    match h
    case Left => 0
    case Center => 1
    case Right => 2
  }

  function VCode(v: VAlign): (r: nat)
    ensures r < 3
  {
    match v
    case Top => 0
    case Middle => 1
    case Bottom => 2
  }

  function MarginCode(i: MarginIndex): (r: nat)
    ensures r < 4
  {
    match i
    case MarginTop => 0
    case MarginRight => 1
    case MarginBottom => 2
    case MarginLeft => 3
  }

  /** Each enum's codes are exactly 0 .. n-1, one per value. */
  lemma CodesAreRanges()
    ensures forall h, h' :: HCode(h) == HCode(h') ==> h == h'
    ensures forall v, v' :: VCode(v) == VCode(v') ==> v == v'
    ensures forall i, i' :: MarginCode(i) == MarginCode(i') ==> i == i'
    ensures {HCode(Left), HCode(Center), HCode(Right)} == {0, 1, 2}
    ensures {VCode(Top), VCode(Middle), VCode(Bottom)} == {0, 1, 2}
    ensures MarginCode(MarginTop) == 0 && MarginCode(MarginRight) == 1
    ensures MarginCode(MarginBottom) == 2 && MarginCode(MarginLeft) == 3
  {
  }

  /** A margin tuple (top, right, bottom, left). */
  type Margin = m: seq<real> | |m| == 4 witness [0.0, 0.0, 0.0, 0.0]

  function At(m: Margin, i: MarginIndex): real
  {
    m[MarginCode(i)]
  }

  function ZeroMargin(): (m: Margin)
    ensures forall i :: At(m, i) == 0.0
  {
    [0.0, 0.0, 0.0, 0.0]
  }

  /** The value held by an ItemAlign object. */
  datatype AlignValue = AlignValue(margin: Margin, align: HAlign, valign: VAlign, outside: bool)

  /** The defaults ItemAlign.__init__ assigns before the keyword overrides. */
  function Default(): (v: AlignValue)
    ensures forall i :: At(v.margin, i) == 0.0
    ensures v.align == Center && v.valign == Top && !v.outside
  {
    AlignValue(ZeroMargin(), Center, Top, false)
  }

  /** The attribute a keyword argument names. */
  datatype Key = MarginKey | AlignKey | VAlignKey | OutsideKey

  /** One keyword argument of ItemAlign(**kw). */
  datatype Keyword = MarginKw(m: Margin) | AlignKw(h: HAlign) | VAlignKw(v: VAlign) | OutsideKw(b: bool)
  {
    function KeyOf(): Key
    {
      match this
      case MarginKw(_) => MarginKey
      case AlignKw(_) => AlignKey
      case VAlignKw(_) => VAlignKey
      case OutsideKw(_) => OutsideKey
    }
  }

  /** Keyword arguments of one call never repeat a name. */
  predicate DistinctKeys(kw: seq<Keyword>)
  {
    forall i, j :: 0 <= i < j < |kw| ==> kw[i].KeyOf() != kw[j].KeyOf()
  }

  /** setattr(self, k, v) for one keyword. */
  function Set(v: AlignValue, k: Keyword): (r: AlignValue)
    ensures FieldIs(r, k)
    ensures k.KeyOf() != MarginKey ==> r.margin == v.margin
    ensures k.KeyOf() != AlignKey ==> r.align == v.align
    ensures k.KeyOf() != VAlignKey ==> r.valign == v.valign
    ensures k.KeyOf() != OutsideKey ==> r.outside == v.outside
  {
    match k
    case MarginKw(m) => v.(margin := m)
    case AlignKw(h) => v.(align := h)
    case VAlignKw(a) => v.(valign := a)
    case OutsideKw(b) => v.(outside := b)
  }

  /** The value after the loop over kw has applied every keyword in turn. */
  function Override(v: AlignValue, kw: seq<Keyword>): (r: AlignValue)
    ensures kw != [] ==> FieldIs(r, kw[|kw| - 1])
    decreases |kw|
  {
    if kw == [] then v else Set(Override(v, kw[..|kw| - 1]), kw[|kw| - 1])
  }

  /** The field a value holds for the attribute a key names. */
  function FieldIs(v: AlignValue, k: Keyword): bool
  {
    match k
    case MarginKw(m) => v.margin == m
    case AlignKw(h) => v.align == h
    case VAlignKw(a) => v.valign == a
    case OutsideKw(b) => v.outside == b
  }

  /** Every keyword given sets its attribute to the value given. */
  lemma {:induction false} OverrideSetsNamed(v: AlignValue, kw: seq<Keyword>, i: nat)
    requires DistinctKeys(kw)
    requires i < |kw|
    ensures FieldIs(Override(v, kw), kw[i])
  {
    var n := |kw| - 1;
    if i < n {
      assert DistinctKeys(kw[..n]);
      assert kw[..n][i] == kw[i];
      OverrideSetsNamed(v, kw[..n], i);
      assert kw[n].KeyOf() != kw[i].KeyOf();
    }
  }

  /** Every attribute no keyword names keeps its value. */
  lemma {:induction false} OverrideKeepsOthers(v: AlignValue, kw: seq<Keyword>)
    ensures (forall i :: 0 <= i < |kw| ==> kw[i].KeyOf() != MarginKey) ==> Override(v, kw).margin == v.margin
    ensures (forall i :: 0 <= i < |kw| ==> kw[i].KeyOf() != AlignKey) ==> Override(v, kw).align == v.align
    ensures (forall i :: 0 <= i < |kw| ==> kw[i].KeyOf() != VAlignKey) ==> Override(v, kw).valign == v.valign
    ensures (forall i :: 0 <= i < |kw| ==> kw[i].KeyOf() != OutsideKey) ==> Override(v, kw).outside == v.outside
    decreases |kw|
  {
    if kw != [] {
      var n := |kw| - 1;
      OverrideKeepsOthers(v, kw[..n]);
      assert forall i :: 0 <= i < n ==> kw[..n][i] == kw[i];
    }
  }

  /** An ItemAlign object: its four attributes are reassigned in place by its users. */
  class ItemAlign {
    var margin: Margin
    var align: HAlign
    var valign: VAlign
    var outside: bool

    function Value(): AlignValue
      reads this
    {
      AlignValue(margin, align, valign, outside)
    }

    /** ItemAlign(**kw): the defaults, then each keyword assigned in turn. */
    constructor (kw: seq<Keyword>)
      ensures Value() == Override(Default(), kw)
    {
      margin := ZeroMargin();
      align := Center;
      valign := Top;
      outside := false;
      new;
      var i := 0;
      while i < |kw|
        invariant 0 <= i <= |kw|
        invariant Value() == Override(Default(), kw[..i])
      {
        assert kw[..i + 1][..i] == kw[..i];
        match kw[i] {
          case MarginKw(m) => margin := m;
          case AlignKw(h) => align := h;
          case VAlignKw(a) => valign := a;
          case OutsideKw(b) => outside := b;
        }
        i := i + 1;
      }
      assert kw[..|kw|] == kw;
    }
  }

  /** The six module-level instances. */
  datatype Preset = CT | C | CB | OutsideLT | OutsideRB | OutsideCB

  /** The keyword arguments each preset is built with. */
  function PresetKwargs(p: Preset): (kw: seq<Keyword>)
    ensures DistinctKeys(kw)
  {
    match p
    case CT => []
    case C => [VAlignKw(Middle)]
    case CB => [VAlignKw(Bottom)]
    case OutsideLT => [AlignKw(Left), OutsideKw(true)]
    case OutsideRB => [AlignKw(Right), VAlignKw(Bottom), OutsideKw(true)]
    case OutsideCB => [VAlignKw(Bottom), OutsideKw(true)]
  }

  function PresetValue(p: Preset): AlignValue
  {
    Override(Default(), PresetKwargs(p))
  }

  /** What each preset's name promises: placement, and zero margins for all. */
  lemma PresetsAsNamed(p: Preset)
    ensures forall i :: At(PresetValue(p).margin, i) == 0.0
    ensures PresetValue(p).outside <==> p in {OutsideLT, OutsideRB, OutsideCB}
    ensures p in {CT, C, CB, OutsideCB} ==> PresetValue(p).align == Center
    ensures p == OutsideLT ==> PresetValue(p).align == Left
    ensures p == OutsideRB ==> PresetValue(p).align == Right
    ensures p in {CT, OutsideLT} ==> PresetValue(p).valign == Top
    ensures p == C ==> PresetValue(p).valign == Middle
    ensures p in {CB, OutsideRB, OutsideCB} ==> PresetValue(p).valign == Bottom
  {
    var kw := PresetKwargs(p);
    OverrideKeepsOthers(Default(), kw);
    forall i | 0 <= i < |kw| ensures FieldIs(PresetValue(p), kw[i]) {
      OverrideSetsNamed(Default(), kw, i);
    }
  }

  /** ItemAlign(**kw) with one preset's keyword arguments. */
  method MakePreset(p: Preset) returns (a: ItemAlign)
    ensures fresh(a) && a.Value() == PresetValue(p)
  {
    a := new ItemAlign(PresetKwargs(p));
  }

  /** The six shared preset objects, created once. */
  class AlignPresets {
    const ct: ItemAlign
    const c: ItemAlign
    const cb: ItemAlign
    const outsideLT: ItemAlign
    const outsideRB: ItemAlign
    const outsideCB: ItemAlign

    function Get(p: Preset): ItemAlign
      reads this
    {
      match p
      case CT => ct
      case C => c
      case CB => cb
      case OutsideLT => outsideLT
      case OutsideRB => outsideRB
      case OutsideCB => outsideCB
    }

    constructor ()
      ensures forall p :: fresh(Get(p)) && Get(p).Value() == PresetValue(p)
      ensures forall p, q :: p != q ==> Get(p) != Get(q)
    {
      var aCT := MakePreset(CT);
      var aC := MakePreset(C);
      var aCB := MakePreset(CB);
      var aLT := MakePreset(OutsideLT);
      var aRB := MakePreset(OutsideRB);
      var aOCB := MakePreset(OutsideCB);
      ct, c, cb := aCT, aC, aCB;
      outsideLT, outsideRB, outsideCB := aLT, aRB, aOCB;
      new;
      assert ct != c && ct != cb && ct != outsideLT && ct != outsideRB && ct != outsideCB;
      assert c != cb && c != outsideLT && c != outsideRB && c != outsideCB;
      assert cb != outsideLT && cb != outsideRB && cb != outsideCB;
      assert outsideLT != outsideRB && outsideLT != outsideCB && outsideRB != outsideCB;
      forall p ensures fresh(Get(p)) && Get(p).Value() == PresetValue(p) {
        match p {
          case CT =>
          case C =>
          case CB =>
          case OutsideLT =>
          case OutsideRB =>
          case OutsideCB =>
        }
      }
    }
  }
}
