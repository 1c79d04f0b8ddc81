/** The element store of a MagicalContainer as a value: a sequence of 32-bit
    integers in insertion order, the two ways it changes (append at the end,
    drop the end), and what a run of container calls does to it. */
module Elements {

  /** C++ `int` on the platforms the container targets. Elements are only
      stored and read back, never combined arithmetically. */
  newtype int32 = x: int | -0x8000_0000 <= x < 0x8000_0000

  /** `push_back`: the new sequence keeps every earlier element where it was
      and holds `x` at the new last position. */
  function Push(s: seq<int32>, x: int32): (r: seq<int32>)
    ensures |r| == |s| + 1
    ensures r[..|s|] == s && r[|s|] == x
  {
    s + [x]
  }

  /** `pop_back`: drops the last element. Undefined on an empty vector, so
      callers must guarantee there is one. The result is the sequence that
      pushing the dropped element back onto restores the input. */
  function Pop(s: seq<int32>): (r: seq<int32>)
    requires |s| > 0
    ensures |r| == |s| - 1
    ensures Push(r, s[|s| - 1]) == s
  {
    assert s[..|s| - 1] + [s[|s| - 1]] == s;
    s[..|s| - 1]
  }

  /** Popping right after pushing gives the original sequence back. */
  lemma PopUndoesPush(s: seq<int32>, x: int32)
    ensures Pop(Push(s, x)) == s
  {
  }

  /** One mutating call on a container, with the argument the caller passed. */
  datatype Call = AddElement(element: int32) | RemoveElement(element: int32)

  /** No call of `calls`, started from `s`, is a removal from an empty store. */
  predicate Defined(s: seq<int32>, calls: seq<Call>)
    decreases |calls|
  {
    calls == [] ||
    match calls[0]
    case AddElement(x) => Defined(Push(s, x), calls[1..])
    case RemoveElement(_) => |s| > 0 && Defined(Pop(s), calls[1..])
  }

  /** The store after performing `calls` in order, starting from `s`. */
  function Run(s: seq<int32>, calls: seq<Call>): (r: seq<int32>)
    requires Defined(s, calls)
    decreases |calls|
  {
    if calls == [] then s
    else match calls[0]
      case AddElement(x) => Run(Push(s, x), calls[1..])
      case RemoveElement(_) => Run(Pop(s), calls[1..])
  }

  function Additions(calls: seq<Call>): (n: nat)
  {
    if calls == [] then 0
    else (if calls[0].AddElement? then 1 else 0) + Additions(calls[1..])
  }

  function Removals(calls: seq<Call>): (n: nat)
  {
    if calls == [] then 0
    else (if calls[0].RemoveElement? then 1 else 0) + Removals(calls[1..])
  }

  /** The size after a run is the starting size plus the additions minus the
      removals. */
  lemma {:induction false} RunSize(s: seq<int32>, calls: seq<Call>)
    requires Defined(s, calls)
    ensures |Run(s, calls)| == |s| + Additions(calls) - Removals(calls)
    decreases |calls|
  {
    if calls != [] {
      match calls[0]
      case AddElement(x) => RunSize(Push(s, x), calls[1..]);
      case RemoveElement(_) => RunSize(Pop(s), calls[1..]);
    }
  }

  /** `a` and `b` make the same calls in the same order, except that the
      argument of a removal may differ. */
  predicate SameButRemovalArguments(a: seq<Call>, b: seq<Call>)
  {
    |a| == |b| &&
    forall i :: 0 <= i < |a| ==>
      (a[i].AddElement? <==> b[i].AddElement?) &&
      (a[i].AddElement? ==> a[i] == b[i])
  }

  /** removeElement ignores its argument: runs that differ only in what was
      passed to the removals are defined alike and leave the same store. */
  lemma {:induction false} RunIgnoresRemovalArguments(s: seq<int32>, a: seq<Call>, b: seq<Call>)
    requires SameButRemovalArguments(a, b)
    ensures Defined(s, a) <==> Defined(s, b)
    ensures Defined(s, a) ==> Run(s, a) == Run(s, b)
    decreases |a|
  {
    if a != [] {
      assert a[0].AddElement? <==> b[0].AddElement?;
      assert SameButRemovalArguments(a[1..], b[1..]) by {
        forall i | 0 <= i < |a| - 1
          ensures (a[1..][i].AddElement? <==> b[1..][i].AddElement?) &&
                  (a[1..][i].AddElement? ==> a[1..][i] == b[1..][i])
        {
          assert a[1..][i] == a[i + 1] && b[1..][i] == b[i + 1];
        }
      }
      match a[0]
      case AddElement(x) =>
        RunIgnoresRemovalArguments(Push(s, x), a[1..], b[1..]);
      case RemoveElement(_) =>
        if |s| > 0 {
          RunIgnoresRemovalArguments(Pop(s), a[1..], b[1..]);
        }
    }
  }

  /** Running `a` and then `b` is running their concatenation. */
  lemma {:induction false} RunAppend(s: seq<int32>, a: seq<Call>, b: seq<Call>)
    ensures Defined(s, a + b) <==> Defined(s, a) && Defined(Run(s, a), b)
    ensures Defined(s, a + b) ==> Run(s, a + b) == Run(Run(s, a), b)
    decreases |a|
  {
    if a == [] {
      assert a + b == b;
    } else {
      assert (a + b)[0] == a[0];
      assert (a + b)[1..] == a[1..] + b;
      match a[0]
      case AddElement(x) => RunAppend(Push(s, x), a[1..], b);
      case RemoveElement(_) =>
        if |s| > 0 {
          RunAppend(Pop(s), a[1..], b);
        }
    }
  }

  /** One addition per value of `xs`, in order. */
  function AddEach(xs: seq<int32>): (calls: seq<Call>)
    ensures |calls| == |xs|
  {
    if xs == [] then [] else [AddElement(xs[0])] + AddEach(xs[1..])
  }

  /** One removal per argument of `args`, in order. */
  function RemoveEach(args: seq<int32>): (calls: seq<Call>)
    ensures |calls| == |args|
  {
    if args == [] then [] else [RemoveElement(args[0])] + RemoveEach(args[1..])
  }

  /** Adding each of `xs` appends `xs` as a whole. */
  lemma {:induction false} RunAddEach(s: seq<int32>, xs: seq<int32>)
    ensures Defined(s, AddEach(xs)) && Run(s, AddEach(xs)) == s + xs
    decreases |xs|
  {
    if xs != [] {
      RunAddEach(Push(s, xs[0]), xs[1..]);
      assert Push(s, xs[0]) + xs[1..] == s + xs;
    }
  }

  /** Removing `|args|` times drops that many elements from the end, whatever
      the arguments are. */
  lemma {:induction false} RunRemoveEach(s: seq<int32>, args: seq<int32>)
    requires |args| <= |s|
    ensures Defined(s, RemoveEach(args)) && Run(s, RemoveEach(args)) == s[..|s| - |args|]
  {
    if args != [] {
      RunRemoveEach(Pop(s), args[1..]);
      assert Pop(s)[..|Pop(s)| - |args[1..]|] == s[..|s| - |args|];
    }
  }

  /** Adding the values `xs` to an empty container and then removing
      `|args| <= |xs|` times leaves the first `|xs| - |args|` values that were
      added, in the order they were added. */
  lemma AddsThenRemoves(xs: seq<int32>, args: seq<int32>)
    requires |args| <= |xs|
    ensures Defined([], AddEach(xs) + RemoveEach(args))
    ensures Run([], AddEach(xs) + RemoveEach(args)) == xs[..|xs| - |args|]
    ensures |Run([], AddEach(xs) + RemoveEach(args))| == |xs| - |args|
  {
    RunAddEach([], xs);
    assert [] + xs == xs;
    RunRemoveEach(xs, args);
    RunAppend([], AddEach(xs), RemoveEach(args));
  }
}
