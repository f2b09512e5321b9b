/**
 The per-slot styles the group computes before any caller style is applied:
 the resolved spacing margin, the z-index of each visible child and the
 style of the overflow indicator.
 */
module Layout {
  import opened Wrappers
  import opened Styles

  /** The `spacing` setting: one of the two named presets or a number. */
  datatype Spacing = Small | Medium | Amount(gap: int)

  /** The inline margin the `small` preset writes. */
  const SmallMargin := -16

  /** The inline margin a spacing writes on a non-first avatar. `medium`
      writes none and leaves the gap to the stylesheet. */
  function SpacingMargin(s: Spacing): (m: Option<int>)
    ensures m.None? <==> s.Medium?
    ensures s.Small? ==> m == Some(SmallMargin)
    ensures s.Amount? ==> m == Some(-s.gap)
  {
    match s
    case Small => Some(SmallMargin)
    case Medium => None
    case Amount(g) => Some(-g)
  }

  /** The `small` preset writes exactly what the number 16 writes. */
  lemma SmallIsSixteen()
    ensures SpacingMargin(Small) == SpacingMargin(Amount(16))
  {
  }

  /** A style whose only keys are `zIndex` and the leading margin. */
  function Stacked(z: int, margin: Option<int>, d: Direction): (s: Style)
    ensures s.zIndex == Some(z)
    ensures Leading(s, d) == margin && Trailing(s, d).None?
  {
    if d == Ltr then Style(Some(z), margin, None) else Style(Some(z), None, margin)
  }

  /** The computed style of the visible child at `index` among `total`
      normalised children: stacked from the front, flush when first. */
  function ChildStyle(index: nat, total: nat, margin: Option<int>, d: Direction): (s: Style)
    ensures s.zIndex == Some(total - index)
    ensures index == 0 ==> s.marginLeft.None? && s.marginRight.None?
    ensures index > 0 ==> Leading(s, d) == margin && Trailing(s, d).None?
  {
    Stacked(total - index, if index == 0 then None else margin, d)
  }

  /** The computed style of the overflow indicator: behind everything, with
      the same leading margin as a non-first child. */
  function IndicatorStyle(margin: Option<int>, d: Direction): (s: Style)
    ensures s.zIndex == Some(0)
    ensures Leading(s, d) == margin && Trailing(s, d).None?
  {
    Stacked(0, margin, d)
  }

  /** Right-to-left styles are the left-to-right ones mirrored. */
  lemma ChildStyleMirror(index: nat, total: nat, margin: Option<int>)
    ensures ChildStyle(index, total, margin, Rtl) == Mirror(ChildStyle(index, total, margin, Ltr))
  {
  }

  /** The same holds for the indicator. */
  lemma IndicatorStyleMirror(margin: Option<int>)
    ensures IndicatorStyle(margin, Rtl) == Mirror(IndicatorStyle(margin, Ltr))
  {
  }
}
