/**
 How many children the group shows and how many it folds into the "+N"
 indicator, from the normalised child count `n` and the `max` setting.
 */
module Overflow {

  /** The smallest `max` the group honours. */
  const MinMax := 2

  /** `max` raised to at least 2; values from 2 up are kept. */
  function ClampMax(max: int): (m: int)
    ensures m >= MinMax
    ensures max >= MinMax ==> m == max
    ensures max < MinMax ==> m == MinMax
  {
    if max < MinMax then MinMax else max
  }

  /** Any `max` below 2 clamps to the same value as `max = 2`. */
  lemma ClampBelowMin(max: int)
    requires max < MinMax
    ensures ClampMax(max) == ClampMax(MinMax)
  {
  }

  /** How many children the indicator stands for. */
  function ExtraAvatars(n: nat, max: int): (e: nat)
    ensures e == 0 <==> n <= ClampMax(max)
    ensures e > 0 ==> e >= 2 && n - e == ClampMax(max) - 1
    ensures e <= n
  {
    var m := ClampMax(max);
    if n > m then n - m + 1 else 0
  }

  /** How many children are rendered as themselves. */
  function VisibleCount(n: nat, max: int): (k: nat)
    ensures k + ExtraAvatars(n, max) == n
    ensures n <= ClampMax(max) ==> k == n
    ensures n > ClampMax(max) ==> k == ClampMax(max) - 1
    ensures n > 0 ==> k > 0
  {
    n - ExtraAvatars(n, max)
  }

  /** The number of occupied slots: the visible children plus the indicator
      when there is one. */
  function SlotCount(n: nat, max: int): (s: nat)
    ensures s <= ClampMax(max)
    ensures s <= n
    ensures s == n || s == ClampMax(max)
  {
    VisibleCount(n, max) + (if ExtraAvatars(n, max) > 0 then 1 else 0)
  }
}
