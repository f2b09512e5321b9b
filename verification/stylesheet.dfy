/**
 The gap each slot ends up with once the directional avatar rule of the
 stylesheet is taken into account: the rule gives every avatar a -8 margin
 on its leading side and the first child of the container 0, and an inline
 margin, when present, wins over the rule. No rule sets the trailing side.
 */
module Stylesheet {
  import opened Wrappers
  import opened Styles
  import opened Children
  import opened Layout
  import opened AvatarGroup

  /** The leading margin the directional avatar rule gives a non-first child. */
  const RuleMargin := -8

  /** The leading margin the rule gives a slot, by whether it is the first child. */
  function RuleLeading(first: bool): int {
    if first then 0 else RuleMargin
  }

  /** The leading margin slot `i` is drawn with. */
  function LeadingGap(g: Group, i: nat): int
    requires i < |g.slots|
  {
    Leading(g.slots[i].style, g.avatarRule).GetOr(RuleLeading(i == 0))
  }

  /** The trailing margin slot `i` is drawn with. */
  function TrailingGap(g: Group, i: nat): int
    requires i < |g.slots|
  {
    Trailing(g.slots[i].style, g.avatarRule).GetOr(0)
  }

  /** The overlap each spacing setting is meant to produce between
      neighbouring avatars: 16 for `small`, 8 for `medium`, the number itself
      otherwise, written as a negative margin. */
  function Gap(s: Spacing): int {
    match s
    case Small => -16
    case Medium => -8
    case Amount(x) => -x
  }

  /** No child is a fragment. React draws a fragment's own children in its
      place and drops the style cloned onto it, so with a fragment a slot no
      longer stands for one drawn element and `:first-child` moves. */
  predicate NoFragments(cs: seq<Node>) {
    forall i :: 0 <= i < |cs| ==> !cs[i].Fragment?
  }

  /** Slot by slot, the margins drawn once the rule is applied. A slot whose
      own style leaves its leading margin alone is flush when first and
      otherwise overlaps its predecessor by the spacing's gap; one whose own
      style clears it falls back to the rule; one whose own style gives a
      number is drawn at that number. The trailing side is 0 unless the
      slot's own style gives a number. The indicator has no own style. */
  lemma RenderedGaps(p: Props)
    requires NoFragments(p.children)
    ensures var g := Render(p);
            var d := p.direction;
            forall i :: 0 <= i < |g.slots| ==>
              var own := OwnStyle(g.slots[i]);
              (LeadingKey(own, d).Absent? ==> LeadingGap(g, i) == (if i == 0 then 0 else Gap(p.spacing)))
              && (LeadingKey(own, d).Cleared? ==> LeadingGap(g, i) == RuleLeading(i == 0))
              && (LeadingKey(own, d).Given? ==> LeadingGap(g, i) == LeadingKey(own, d).v)
              && (TrailingKey(own, d).Given? ==> TrailingGap(g, i) == TrailingKey(own, d).v)
              && (!TrailingKey(own, d).Given? ==> TrailingGap(g, i) == 0)
  {
    RenderMargins(p);
  }
}
