/**
 Inline style records as the group writes them onto each avatar: only the
 three keys the layout computes are modelled. In a computed style `Some(v)`
 means the key holds `v` and `None` that it holds nothing React writes
 (absent, `undefined`, `null` or `false`).
 */
module Styles {
  import opened Wrappers

  datatype Style = Style(zIndex: Option<int>, marginLeft: Option<int>, marginRight: Option<int>)

  /** One key of the style prop a caller put on a child: not mentioned at
      all, mentioned with a value React ignores (`undefined`, `null`,
      `false`), or given a number. */
  datatype Key = Absent | Cleared | Given(v: int)

  /** The caller's own style prop on a child, by the three modelled keys. */
  datatype Override = Override(zIndex: Key, marginLeft: Key, marginRight: Key)

  /** A child without a style prop. */
  const NoOverride := Override(Absent, Absent, Absent)

  /** Reading direction of the group. */
  datatype Direction = Ltr | Rtl

  /** The margin on the side where an avatar overlaps its predecessor. */
  function Leading(s: Style, d: Direction): Option<int> {
    if d == Ltr then s.marginLeft else s.marginRight
  }

  /** The margin on the side facing away from the predecessor. */
  function Trailing(s: Style, d: Direction): Option<int> {
    if d == Ltr then s.marginRight else s.marginLeft
  }

  /** The caller's key on the leading side. */
  function LeadingKey(o: Override, d: Direction): Key {
    if d == Ltr then o.marginLeft else o.marginRight
  }

  /** The caller's key on the trailing side. */
  function TrailingKey(o: Override, d: Direction): Key {
    if d == Ltr then o.marginRight else o.marginLeft
  }

  /** The value one key ends with after the caller's spread. */
  function Spread(computed: Option<int>, k: Key): Option<int> {
    match k
    case Absent => computed
    case Cleared => None
    case Given(v) => Some(v)
  }

  /** Object spread `{...computed, ...caller}`: a key the caller mentions
      takes the caller's value, even one React ignores, and a key the caller
      does not mention keeps its computed value. */
  function Merge(computed: Style, caller: Override): (r: Style)
    ensures caller.zIndex.Absent? ==> r.zIndex == computed.zIndex
    ensures caller.zIndex.Cleared? ==> r.zIndex.None?
    ensures caller.zIndex.Given? ==> r.zIndex == Some(caller.zIndex.v)
    ensures caller.marginLeft.Absent? ==> r.marginLeft == computed.marginLeft
    ensures caller.marginLeft.Cleared? ==> r.marginLeft.None?
    ensures caller.marginLeft.Given? ==> r.marginLeft == Some(caller.marginLeft.v)
    ensures caller.marginRight.Absent? ==> r.marginRight == computed.marginRight
    ensures caller.marginRight.Cleared? ==> r.marginRight.None?
    ensures caller.marginRight.Given? ==> r.marginRight == Some(caller.marginRight.v)
  {
    Style(
      Spread(computed.zIndex, caller.zIndex),
      Spread(computed.marginLeft, caller.marginLeft),
      Spread(computed.marginRight, caller.marginRight))
  }

  /** The same style with its left and right margins exchanged. */
  function Mirror(s: Style): (r: Style)
    ensures r.zIndex == s.zIndex
    ensures Leading(r, Rtl) == Leading(s, Ltr) && Trailing(r, Rtl) == Trailing(s, Ltr)
    ensures Leading(r, Ltr) == Leading(s, Rtl) && Trailing(r, Ltr) == Trailing(s, Rtl)
  {
    Style(s.zIndex, s.marginRight, s.marginLeft)
  }

  /** A caller style with its left and right margin keys exchanged. */
  function MirrorOverride(o: Override): Override {
    Override(o.zIndex, o.marginRight, o.marginLeft)
  }

  /** Spreading the caller's style a second time changes nothing. */
  lemma MergeIdempotent(computed: Style, caller: Override)
    ensures Merge(Merge(computed, caller), caller) == Merge(computed, caller)
  {
  }

  /** A child without a style prop keeps the computed style. */
  lemma MergeNoOverride(computed: Style)
    ensures Merge(computed, NoOverride) == computed
  {
  }

  /** Mirroring commutes with the spread, once the caller's keys are mirrored too. */
  lemma MirrorMerge(computed: Style, caller: Override)
    ensures Mirror(Merge(computed, caller)) == Merge(Mirror(computed), MirrorOverride(caller))
  {
  }
}
