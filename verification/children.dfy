/**
 The child list the group receives, and its normalisation: the flat list is
 filtered down to what React calls valid elements, keeping their order.
 */
module Children {
  import opened Wrappers
  import opened Styles

  /** A renderable node handed to the group. `Empty` stands for `null`,
      `undefined` and booleans; `Text` for strings and numbers. A fragment
      is an element in its own right: its children are never inspected. */
  datatype Node =
    | Element(tag: string, style: Option<Override>)
    | Text(text: string)
    | Empty
    | Fragment(children: seq<Node>)

  /** `React.isValidElement`: true of elements, fragments included. */
  predicate IsValidElement(n: Node) {
    n.Element? || n.Fragment?
  }

  /** The style prop the caller put on a child, as a record of present keys. */
  function CallerStyle(n: Node): Override {
    match n
    case Element(_, Some(s)) => s
    case _ => NoOverride
  }

  /** The children that survive normalisation, in their original order. */
  function Normalise(cs: seq<Node>): (r: seq<Node>)
    ensures |r| <= |cs|
    ensures forall i :: 0 <= i < |r| ==> IsValidElement(r[i])
    ensures forall x :: x in r <==> x in cs && IsValidElement(x)
    decreases |cs|
  {
    if |cs| == 0 then []
    else (if IsValidElement(cs[0]) then [cs[0]] else []) + Normalise(cs[1..])
  }

  /** Normalisation works piecewise: the survivors of a concatenation are the
      survivors of the first part followed by those of the second, so the
      relative order of kept children is never changed. */
  lemma {:induction false} NormaliseAppend(a: seq<Node>, b: seq<Node>)
    ensures Normalise(a + b) == Normalise(a) + Normalise(b)
    decreases |a|
  {
    if |a| == 0 {
      assert a + b == b;
    } else {
      assert (a + b)[1..] == a[1..] + b;
      NormaliseAppend(a[1..], b);
    }
  }

  /** A list made only of valid elements passes through unchanged. */
  lemma {:induction false} NormaliseKeepsValid(cs: seq<Node>)
    requires forall i :: 0 <= i < |cs| ==> IsValidElement(cs[i])
    ensures Normalise(cs) == cs
    decreases |cs|
  {
    if |cs| > 0 {
      NormaliseKeepsValid(cs[1..]);
      assert [cs[0]] + cs[1..] == cs;
    }
  }

  /** Normalising a second time changes nothing. */
  lemma NormaliseIdempotent(cs: seq<Node>)
    ensures Normalise(Normalise(cs)) == Normalise(cs)
  {
    NormaliseKeepsValid(Normalise(cs));
  }

  /** A single child survives exactly when it is a valid element. */
  lemma NormaliseSingle(c: Node)
    ensures Normalise([c]) == if IsValidElement(c) then [c] else []
  {
    assert [c][1..] == [];
  }
}
