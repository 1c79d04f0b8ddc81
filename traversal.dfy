/** What an iterator position yields when it is dereferenced and advanced,
    step by step, until it reaches the end of the element store. */
module Traversal {
  import opened Elements

  /** The values read by dereferencing at `pos`, advancing by one, and
      repeating until the position is the end (`|s|`). */
  function Visit(s: seq<int32>, pos: nat): (r: seq<int32>)
    requires pos <= |s|
    decreases |s| - pos
  {
    if pos == |s| then [] else [s[pos]] + Visit(s, pos + 1)
  }

  /** From any position, the walk yields exactly the rest of the store in
      insertion order: nothing is skipped, repeated or reordered. */
  lemma {:induction false} VisitFrom(s: seq<int32>, pos: nat)
    requires pos <= |s|
    ensures Visit(s, pos) == s[pos..]
    decreases |s| - pos
  {
    if pos < |s| {
      VisitFrom(s, pos + 1);
      assert [s[pos]] + s[pos + 1..] == s[pos..];
    }
  }

  /** From the beginning, the walk yields the store in insertion order. */
  lemma VisitFromBegin(s: seq<int32>)
    ensures Visit(s, 0) == s
  {
    VisitFrom(s, 0);
  }
}
