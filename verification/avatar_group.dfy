/**
 The group's render step: normalise the children, split them into the
 visible ones and the overflow count, give each visible child its stacked
 style (the caller's own style keys winning), and append the "+N" indicator
 when anything overflows.
 */
module AvatarGroup {
  import opened Wrappers
  import opened Styles
  import opened Children
  import opened Overflow
  import opened Layout

  /** The settings the group reads, with their defaults in `Defaults`. */
  datatype Props = Props(children: seq<Node>, max: int, spacing: Spacing, direction: Direction)

  /** The props a caller gets by passing only children. */
  function Defaults(children: seq<Node>): Props {
    Props(children, 5, Medium, Ltr)
  }

  /** One rendered slot: a clone of a visible child with its final inline
      style, or the indicator showing `+count`. */
  datatype Slot =
    | Avatar(child: Node, style: Style)
    | Indicator(count: nat, style: Style)

  /** The value the container's `flexDirection` takes for right-to-left. */
  const RowReverse := "row-reverse"

  /** The rendered container: its inline flex direction, which of the two
      directional avatar rules every slot carries, and the slots in order. */
  datatype Group = Group(flexDirection: Option<string>, avatarRule: Direction, slots: seq<Slot>)

  /** The slots for the normalised children `kids`, `extra` of which are
      folded into the indicator, each later slot carrying `margin`. */
  function Slots(kids: seq<Node>, extra: nat, margin: Option<int>, d: Direction): (r: seq<Slot>)
    requires extra <= |kids|
    ensures |r| == |kids| - extra + (if extra > 0 then 1 else 0)
    ensures forall i :: 0 <= i < |r| ==> (r[i].Indicator? <==> i == |kids| - extra)
    ensures forall i :: 0 <= i < |kids| - extra ==> r[i].Avatar? && r[i].child == kids[i]
    ensures extra > 0 ==> r[|kids| - extra].count == extra
  {
    var n := |kids|;
    var visible := seq(n - extra, i requires 0 <= i < n - extra =>
                     Avatar(kids[i], Merge(ChildStyle(i, n, margin, d), CallerStyle(kids[i]))));
    var indicator := if extra > 0 then [Indicator(extra, IndicatorStyle(margin, d))] else [];
    visible + indicator
  }

  function Render(p: Props): (g: Group)
    ensures |g.slots| == SlotCount(|Normalise(p.children)|, p.max)
    ensures |g.slots| <= ClampMax(p.max)
    ensures forall i :: 0 <= i < |g.slots| ==>
              (g.slots[i].Indicator? <==> i == VisibleCount(|Normalise(p.children)|, p.max))
    ensures g.avatarRule == p.direction
    ensures g.flexDirection == (if p.direction == Rtl then Some(RowReverse) else None)
  {
    var kids := Normalise(p.children);
    var d := p.direction;
    Group(if d == Rtl then Some(RowReverse) else None, d,
          Slots(kids, ExtraAvatars(|kids|, p.max), SpacingMargin(p.spacing), d))
  }

  /** The children shown as themselves, in slot order. */
  function Shown(slots: seq<Slot>): (r: seq<Node>)
    ensures |r| <= |slots|
    decreases |slots|
  {
    if |slots| == 0 then []
    else (if slots[0].Avatar? then [slots[0].child] else []) + Shown(slots[1..])
  }

  lemma {:induction false} ShownAppend(a: seq<Slot>, b: seq<Slot>)
    ensures Shown(a + b) == Shown(a) + Shown(b)
    decreases |a|
  {
    if |a| == 0 {
      assert a + b == b;
    } else {
      var head := if a[0].Avatar? then [a[0].child] else [];
      assert (a + b)[0] == a[0];
      assert (a + b)[1..] == a[1..] + b;
      assert Shown(a + b) == head + Shown(a[1..] + b);
      ShownAppend(a[1..], b);
      assert Shown(a) == head + Shown(a[1..]);
    }
  }

  lemma {:induction false} ShownAvatars(slots: seq<Slot>, xs: seq<Node>)
    requires |slots| == |xs|
    requires forall i :: 0 <= i < |slots| ==> slots[i].Avatar? && slots[i].child == xs[i]
    ensures Shown(slots) == xs
    decreases |slots|
  {
    if |slots| > 0 {
      ShownAvatars(slots[1..], xs[1..]);
      assert [xs[0]] + xs[1..] == xs;
    }
  }

  /** The children shown are the first `VisibleCount` normalised children, in
      order; when nothing overflows that is every normalised child. */
  lemma RenderShowsPrefix(p: Props)
    ensures Shown(Render(p).slots) == Normalise(p.children)[..VisibleCount(|Normalise(p.children)|, p.max)]
    ensures |Normalise(p.children)| <= ClampMax(p.max) ==> Shown(Render(p).slots) == Normalise(p.children)
  {
    var kids := Normalise(p.children);
    var k := VisibleCount(|kids|, p.max);
    var slots := Render(p).slots;
    ShownAppend(slots[..k], slots[k..]);
    assert slots == slots[..k] + slots[k..];
    ShownAvatars(slots[..k], kids[..k]);
    if k < |slots| {
      assert slots[k..] == [slots[k]];
      assert Shown([slots[k]]) == [] by {
        assert [slots[k]][1..] == [];
      }
    } else {
      assert slots[k..] == [];
    }
  }

  /** Counts: with `n` normalised children and `m` the clamped max, an exact
      or short list shows everything with no indicator; a longer one shows
      `m - 1` children and an indicator for the `n - m + 1 >= 2` others. */
  lemma RenderCounts(p: Props)
    ensures var n := |Normalise(p.children)|;
            var m := ClampMax(p.max);
            var g := Render(p);
            (n <= m ==> |g.slots| == n && forall i :: 0 <= i < n ==> g.slots[i].Avatar?)
            && (n > m ==> |g.slots| == m && g.slots[m - 1].Indicator?
                          && g.slots[m - 1].count == n - m + 1 && g.slots[m - 1].count >= 2
                          && forall i :: 0 <= i < m - 1 ==> g.slots[i].Avatar?)
  {
  }

  /** Every `max` below 2 renders exactly as `max = 2` does. */
  lemma RenderClampsMax(p: Props)
    requires p.max < MinMax
    ensures Render(p) == Render(p.(max := MinMax))
  {
    var n := |Normalise(p.children)|;
    assert ClampMax(p.max) == ClampMax(MinMax);
    assert ExtraAvatars(n, p.max) == ExtraAvatars(n, MinMax);
  }

  /** The `small` preset renders exactly as the number 16 does. */
  lemma RenderSmallIsSixteen(p: Props)
    requires p.spacing == Small
    ensures Render(p) == Render(p.(spacing := Amount(16)))
  {
  }

  /** Each visible child's final style takes every key the caller mentions
      from the caller: a number as given, a value React ignores as no value. */
  lemma RenderCallerOverrides(p: Props, i: nat)
    requires i < VisibleCount(|Normalise(p.children)|, p.max)
    ensures var c := CallerStyle(Normalise(p.children)[i]);
            var s := Render(p).slots[i].style;
            (!c.zIndex.Absent? ==> s.zIndex == Spread(None, c.zIndex))
            && (!c.marginLeft.Absent? ==> s.marginLeft == Spread(None, c.marginLeft))
            && (!c.marginRight.Absent? ==> s.marginRight == Spread(None, c.marginRight))
  {
  }

  /** The caller's own style on a slot; the indicator has none. */
  function OwnStyle(s: Slot): Override {
    match s
    case Avatar(c, _) => CallerStyle(c)
    case Indicator(_, _) => NoOverride
  }

  predicate NoCallerMargins(cs: seq<Node>) {
    forall i :: 0 <= i < |cs| ==>
      CallerStyle(cs[i]).marginLeft.Absent? && CallerStyle(cs[i]).marginRight.Absent?
  }

  /** Normalisation keeps only children of the input, so a property every
      input child has carries over. */
  lemma NormalisedFrom(cs: seq<Node>, i: nat)
    requires i < |Normalise(cs)|
    ensures Normalise(cs)[i] in cs
  {
    assert Normalise(cs)[i] in Normalise(cs);
  }

  /** Stacking: every slot whose own style leaves `zIndex` alone sits at
      `n - i` when it is the child at `i` and at 0 when it is the indicator.
      The last visible child is still at 1 or above, so the indicator is
      below every such child, and each such child is one below the child
      before it. */
  lemma RenderZIndex(p: Props)
    ensures var n := |Normalise(p.children)|;
            var k := VisibleCount(n, p.max);
            var g := Render(p);
            (forall i :: 0 <= i < |g.slots| && OwnStyle(g.slots[i]).zIndex.Absent? ==>
               g.slots[i].style.zIndex == Some(if i < k then n - i else 0))
            && (0 < k ==> n - (k - 1) >= 1)
            && (k < |g.slots| ==> g.slots[k].style.zIndex == Some(0))
  {
    var kids := Normalise(p.children);
    var n := |kids|;
    var k := VisibleCount(n, p.max);
    var margin := SpacingMargin(p.spacing);
    var g := Render(p);
    assert g.slots == Slots(kids, ExtraAvatars(n, p.max), margin, p.direction);
    forall i | 0 <= i < |g.slots| && OwnStyle(g.slots[i]).zIndex.Absent?
      ensures g.slots[i].style.zIndex == Some(if i < k then n - i else 0)
    {
      if i < k {
        assert g.slots[i] == Avatar(kids[i], Merge(ChildStyle(i, n, margin, p.direction), CallerStyle(kids[i])));
      } else {
        assert g.slots[i] == Indicator(ExtraAvatars(n, p.max), IndicatorStyle(margin, p.direction));
      }
    }
  }

  /** Margins, slot by slot: where a slot's own style leaves the leading
      margin alone, the first slot has none and every later slot (the
      indicator included) has the spacing margin; where it leaves the
      trailing margin alone, that side has none. The indicator takes no
      caller style, so its computed style is its final style. */
  lemma RenderMargins(p: Props)
    ensures var g := Render(p);
            var d := p.direction;
            (forall i :: 0 <= i < |g.slots| ==>
               (LeadingKey(OwnStyle(g.slots[i]), d).Absent? ==>
                  Leading(g.slots[i].style, d) == (if i == 0 then None else SpacingMargin(p.spacing)))
               && (TrailingKey(OwnStyle(g.slots[i]), d).Absent? ==> Trailing(g.slots[i].style, d).None?))
            && (forall i :: 0 <= i < |g.slots| && g.slots[i].Indicator? ==>
                  i > 0 && g.slots[i].style == IndicatorStyle(SpacingMargin(p.spacing), d))
  {
  }

  /** The slots with left and right margins exchanged, in the same order. */
  function MirrorSlots(slots: seq<Slot>): (r: seq<Slot>)
    ensures |r| == |slots|
  {
    seq(|slots|, i requires 0 <= i < |slots| =>
      match slots[i]
      case Avatar(c, s) => Avatar(c, Mirror(s))
      case Indicator(k, s) => Indicator(k, Mirror(s)))
  }

  /** Direction mirroring: switching from left-to-right to right-to-left
      keeps every slot, child, count and z-index and only exchanges the two
      margin sides; the container alone reverses its flex direction. */
  lemma RenderMirror(p: Props)
    requires NoCallerMargins(p.children)
    ensures var l := Render(p.(direction := Ltr));
            var r := Render(p.(direction := Rtl));
            r.slots == MirrorSlots(l.slots)
            && l.flexDirection.None? && r.flexDirection == Some(RowReverse)
  {
    var kids := Normalise(p.children);
    forall i | 0 <= i < |kids|
      ensures CallerStyle(kids[i]).marginLeft.Absent? && CallerStyle(kids[i]).marginRight.Absent?
    {
      NormalisedFrom(p.children, i);
    }
  }
}
