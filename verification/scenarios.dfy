/**
 Worked cases: concrete renders stated against the general model. Each
 takes its child count as a parameter: stated on a literal list, these
 lemmas ran out of resource as the verifier unfolded `Normalise` on it.
 */
module Scenarios {
  import opened Wrappers
  import opened Styles
  import opened Children
  import opened AvatarGroup
  import opened Stylesheet

  /** `count` plain avatars with no style of their own. */
  function Plain(count: nat): (cs: seq<Node>)
    ensures |cs| == count
    ensures forall i :: 0 <= i < count ==> cs[i] == Element("Avatar", None)
  {
    seq(count, i => Element("Avatar", None))
  }

  lemma PlainNormalises(count: nat)
    ensures Normalise(Plain(count)) == Plain(count)
    ensures NoFragments(Plain(count)) && NoCallerMargins(Plain(count))
  {
    NormaliseKeepsValid(Plain(count));
  }

  /** Seven children with the default props (`max` 5, `medium`, `ltr`):
      four avatars at z-indices 7, 6, 5, 4 with gaps 0, -8, -8, -8, then "+3"
      at z-index 0 with gap -8. */
  lemma SevenOverFive(count: nat)
    requires count == 7
    ensures var g := Render(Defaults(Plain(count)));
            |g.slots| == 5
            && g.slots[4] == Indicator(3, Style(Some(0), None, None))
            && (forall i :: 0 <= i < 4 ==> g.slots[i].Avatar? && g.slots[i].style.zIndex == Some(7 - i))
            && LeadingGap(g, 0) == 0
            && (forall i :: 1 <= i < 5 ==> LeadingGap(g, i) == -8)
  {
    var p := Defaults(Plain(count));
    var g := Render(p);
    PlainNormalises(count);
    RenderCounts(p);
    assert forall i :: 0 <= i < 4 ==> g.slots[i].child == Plain(count)[i];
    assert forall i :: 0 <= i < 5 ==> OwnStyle(g.slots[i]) == NoOverride;
    RenderZIndex(p);
    RenderedGaps(p);
  }

  /** Six children with the default props give four avatars and "+2", not "+1". */
  lemma SixOverFive(count: nat)
    requires count == 6
    ensures var g := Render(Defaults(Plain(count)));
            |g.slots| == 5 && g.slots[4].Indicator? && g.slots[4].count == 2
  {
    PlainNormalises(count);
    RenderCounts(Defaults(Plain(count)));
  }

  /** Five children with the default props fit exactly: five avatars, no
      indicator. */
  lemma FiveFitFive(count: nat)
    requires count == 5
    ensures var g := Render(Defaults(Plain(count)));
            |g.slots| == 5 && forall i :: 0 <= i < 5 ==> g.slots[i].Avatar?
  {
    PlainNormalises(count);
    RenderCounts(Defaults(Plain(count)));
  }

  lemma DropsFront(a: Node, t: Node)
    requires a.Element? && t.Text?
    ensures Normalise([a, t, Empty]) == [a]
  {
    assert [a, t, Empty] == [a] + [t, Empty];
    NormaliseAppend([a], [t, Empty]);
    assert [t, Empty] == [t] + [Empty];
    NormaliseAppend([t], [Empty]);
    NormaliseSingle(a);
    NormaliseSingle(t);
    NormaliseSingle(Empty);
  }

  lemma KeepsBack(f: Node, a: Node)
    requires a.Element? && f.Fragment?
    ensures Normalise([f, a]) == [f, a]
  {
    NormaliseKeepsValid([f, a]);
  }

  /** Text and empty nodes are dropped; a fragment is kept as a child. */
  lemma MixedChildren(a: Node, t: Node, f: Node)
    requires a.Element? && t.Text? && f.Fragment?
    ensures Normalise([a, t, Empty, f, a]) == [a, f, a]
  {
    assert [a, t, Empty, f, a] == [a, t, Empty] + [f, a];
    NormaliseAppend([a, t, Empty], [f, a]);
    DropsFront(a, t);
    KeepsBack(f, a);
  }
}
