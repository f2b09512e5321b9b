# AvatarGroup layout model

A Dafny model of the layout logic of Material-UI Lab's `AvatarGroup`
component. The component stacks a list of avatar elements. Any avatars
beyond a maximum are folded into one trailing "+N" indicator.

The model is a pure function `AvatarGroup.Render` from the props (children,
`max`, `spacing`, `direction`) to a `Group`: the container's flex direction,
which directional avatar rule the slots carry, and the ordered slots. Each
slot is either a visible child with its final inline style or the indicator
with its count and style. It is built from four parts, one module each:

- `Children`: the child variant (element, text, empty, fragment) and the
  normalisation that keeps valid elements in order.
- `Overflow`: clamping `max` to at least 2, the overflow count
  (`extraAvatars`), the visible count and the slot count.
- `Layout`: the `SPACINGS` lookup and the computed per-slot styles
  (z-index and leading-side margin).
- `AvatarGroup`: the render itself and the properties relating its output to
  its inputs. `Styles` holds the style record and the caller-style spread.
  `Stylesheet` resolves an inline margin against the `ltrAvatar`/`rtlAvatar`
  rules (-8, first child 0) to give the gap each slot is drawn with when no
  child is a fragment. `Scenarios` states worked cases.

Points where the code's behaviour is easy to misread:

- A fragment child is kept. `React.isValidElement` is true of a fragment,
  and the fragment check at lines 52-58 of `AvatarGroup.js` only logs.
- The z-index is `children.length - index` over all normalised children, not
  over the visible ones. So 7 children with `max` 5 get z-indices 7, 6, 5, 4.
- With overflow, clamped max - 1 children are visible, and the indicator
  takes the last of the clamped max slots. With `max` 0 and 3 children, one
  child and the indicator are shown.
- The caller's style is spread after the computed keys. A caller key set to
  `undefined`, `null` or `false` therefore erases the computed value.

## Model

| member | source | states |
|---|---|---|
| Overflow.ClampMax | packages/material-ui-lab/src/AvatarGroup/AvatarGroup.js:49 | the effective max is at least 2; a max of 2 or more is kept and any smaller value becomes 2 |
| Overflow.ClampBelowMin | packages/material-ui-lab/src/AvatarGroup/AvatarGroup.js:49 | every max below 2 clamps to the same value as max 2 |
| Overflow.ExtraAvatars | packages/material-ui-lab/src/AvatarGroup/AvatarGroup.js:65 | the overflow count is 0 exactly when n fits in the clamped max; when non-zero it is at least 2, leaves clamped max - 1 children, and never exceeds n |
| Overflow.VisibleCount | packages/material-ui-lab/src/AvatarGroup/AvatarGroup.js:76 | visible plus overflow equals n; all n are shown when they fit, otherwise clamped max - 1; a non-empty list always shows at least one child |
| Overflow.SlotCount | packages/material-ui-lab/src/AvatarGroup/AvatarGroup.js:76-105 | visible children plus the optional indicator never exceed the clamped max nor n, and equal one of the two |
| Children.Normalise | packages/material-ui-lab/src/AvatarGroup/AvatarGroup.js:50-63 | the survivors are all valid elements, no more than the input, and a node survives if and only if it is in the input and valid |
| Children.NormaliseAppend | packages/material-ui-lab/src/AvatarGroup/AvatarGroup.js:50-63 | normalising a concatenation is concatenating the normalised parts, so kept children keep their relative order |
| Children.NormaliseKeepsValid | packages/material-ui-lab/src/AvatarGroup/AvatarGroup.js:62 | a list of valid elements passes through unchanged |
| Children.NormaliseIdempotent | packages/material-ui-lab/src/AvatarGroup/AvatarGroup.js:50-63 | normalising twice is normalising once |
| Children.NormaliseSingle | packages/material-ui-lab/src/AvatarGroup/AvatarGroup.js:62 | a single node survives exactly when it is a valid element |
| Styles.Merge | packages/material-ui-lab/src/AvatarGroup/AvatarGroup.js:83-88 | a key the caller gives a number ends with that number, a key the caller sets to a value React ignores ends with no value, and a key the caller does not mention keeps its computed value |
| Styles.MergeIdempotent | packages/material-ui-lab/src/AvatarGroup/AvatarGroup.js:87 | spreading the caller's style again changes nothing |
| Styles.MergeNoOverride | packages/material-ui-lab/src/AvatarGroup/AvatarGroup.js:87 | a child without a style prop keeps the computed style |
| Styles.MirrorMerge | packages/material-ui-lab/src/AvatarGroup/AvatarGroup.js:85-87 | exchanging left and right margins commutes with the caller-style spread, once the caller's margin keys are exchanged too |
| Layout.SpacingMargin | packages/material-ui-lab/src/AvatarGroup/AvatarGroup.js:9-12 | the inline margin is absent exactly for `medium`; `small` writes -16 and a number s writes -s |
| Layout.SmallIsSixteen | packages/material-ui-lab/src/AvatarGroup/AvatarGroup.js:67 | `small` writes the same margin as the number 16 |
| Layout.ChildStyle | packages/material-ui-lab/src/AvatarGroup/AvatarGroup.js:83-86 | child i of n gets z-index n - i; index 0 gets no margin on either side; later children get the margin on the leading side and none on the trailing side |
| Layout.IndicatorStyle | packages/material-ui-lab/src/AvatarGroup/AvatarGroup.js:97-101 | the indicator gets z-index 0, the margin on the leading side, nothing on the trailing side |
| Layout.ChildStyleMirror | packages/material-ui-lab/src/AvatarGroup/AvatarGroup.js:85-86 | a right-to-left child style is the left-to-right one with its margins exchanged |
| Layout.IndicatorStyleMirror | packages/material-ui-lab/src/AvatarGroup/AvatarGroup.js:99-100 | the same for the indicator |
| AvatarGroup.Render | packages/material-ui-lab/src/AvatarGroup/AvatarGroup.js:49-105 | the slot count is the visible count plus the optional indicator and never exceeds the clamped max; the only indicator slot is the one right after the visible children; the slots carry the rule of the given direction; only right-to-left sets `row-reverse` on the container; `Defaults` gives the prop defaults `max` 5, `medium`, `ltr` of lines 44-46 |
| AvatarGroup.Slots | packages/material-ui-lab/src/AvatarGroup/AvatarGroup.js:76-105 | one slot per visible child, holding the normalised children in order, plus the indicator counting the overflow; the only indicator slot is right after the visible ones |
| AvatarGroup.RenderShowsPrefix | packages/material-ui-lab/src/AvatarGroup/AvatarGroup.js:76 | the children shown are the first visible-count normalised children in order, and all of them when they fit |
| AvatarGroup.RenderCounts | packages/material-ui-lab/src/AvatarGroup/AvatarGroup.js:65-105 | n children fitting the clamped max m render as n avatars; more render as m - 1 avatars followed by an indicator counting n - m + 1, which is at least 2 |
| AvatarGroup.RenderClampsMax | packages/material-ui-lab/src/AvatarGroup/AvatarGroup.js:49 | any max below 2 renders exactly like max 2 |
| AvatarGroup.RenderSmallIsSixteen | packages/material-ui-lab/src/AvatarGroup/AvatarGroup.js:67 | spacing `small` renders exactly like spacing 16 |
| AvatarGroup.RenderCallerOverrides | packages/material-ui-lab/src/AvatarGroup/AvatarGroup.js:87 | every key the caller mentions on a visible child decides that key of its final style: a number as given, an ignored value as no value |
| AvatarGroup.RenderZIndex | packages/material-ui-lab/src/AvatarGroup/AvatarGroup.js:84-98 | each slot whose own style leaves `zIndex` alone sits at n - i for the child at i and at 0 for the indicator; the last visible child is at 1 or above; the indicator is at 0 in every case |
| AvatarGroup.RenderMargins | packages/material-ui-lab/src/AvatarGroup/AvatarGroup.js:85-100 | per slot: where its own style leaves the leading margin alone, slot 0 has none and every later slot has the spacing margin; where it leaves the trailing margin alone, that side has none; the indicator is never first and its style is always the computed indicator style |
| AvatarGroup.RenderMirror | packages/material-ui-lab/src/AvatarGroup/AvatarGroup.js:72-100 | without caller margins, switching ltr to rtl keeps every slot, child, count and z-index and only exchanges left and right margins; only the right-to-left container gets `row-reverse` |
| Stylesheet.RenderedGaps | packages/material-ui-lab/src/AvatarGroup/AvatarGroup.js:24-36 | with no fragment children, per slot: a leading margin left alone is drawn as 0 for the first slot and the spacing's gap (-16, -8 or -s) otherwise; a cleared one falls back to the rule; a given one is drawn as given; the trailing side is 0 unless the child's own style gives a number |
| Scenarios.SevenOverFive | packages/material-ui-lab/src/AvatarGroup/AvatarGroup.js:76-105 | seven plain children with the default props: four avatars at z-index 7, 6, 5, 4 with gaps 0, -8, -8, -8, then "+3" at z-index 0 with gap -8 |
| Scenarios.SixOverFive | packages/material-ui-lab/src/AvatarGroup/AvatarGroup.js:65 | six children with the default props give "+2" in the fifth slot |
| Scenarios.FiveFitFive | packages/material-ui-lab/src/AvatarGroup/AvatarGroup.js:65 | five children with the default props fit exactly with no indicator |
| Scenarios.MixedChildren | packages/material-ui-lab/src/AvatarGroup/AvatarGroup.js:50-63 | text and empty nodes are dropped and a fragment is kept, in order |

## Left out

- React plumbing is not modelled: `forwardRef` and the ref, `cloneElement`,
  the `...other` spread and the root `className`. Class names joined with
  `clsx` are reduced to which directional avatar rule a slot carries.
- `React.Children.toArray` also flattens nested arrays and assigns keys.
  The model takes the child list as already flat and has no keys.
- The PropTypes validation (including the `max` check) and the fragment
  `console.error` are development diagnostics with no effect on layout.
- The `Avatar` component that draws the indicator is external. The model
  records the indicator's count; the text `+N` is that count.
- `max` and numeric `spacing` are integers. Fractional values, `NaN` and
  `Infinity` are not modelled.
- In a computed style, `undefined`, `null` and the `false` written at lines
  85-86 are all `None`. In a caller's style they are `Cleared`, which the
  spread also turns into `None`. A `spacing` of 0 writes `-0`, which is
  modelled as 0.
- Only `ltr` and `rtl` are modelled as directions, the two the props accept.
- A caller's style is modelled by its `zIndex`, `marginLeft` and
  `marginRight` keys only. In the source, any other key also reaches the
  element after the computed keys. A `margin` shorthand there overrides the
  computed overlap in the page. The model does not represent such keys.
- Stylesheet.RenderedGaps: assumes no child is a fragment. React draws a
  fragment's children in its place and drops the style cloned onto it, which
  changes which element is `:first-child`. It also assumes the child's own
  style has no `margin` shorthand, which the model does not represent, and
  that each element child renders as exactly one DOM element that receives
  the cloned `className` and `style`. A component that renders nothing or
  several nodes moves `:first-child` as a fragment does, and one that ignores
  `style` never draws the inline margin.
- The stylesheet's other rules (`display: flex`, the border colour from the
  theme) are not modelled. The element's own styles are assumed to set no
  margin, so an unset trailing margin is drawn as 0.
- Re-rendering with identical inputs gives identical output because
  `Render` is a pure function. No separate lemma states it.
- AvatarGroup.RenderMirror: requires that no child carries its own margins,
  because the caller's margins are not mirrored by the component.
