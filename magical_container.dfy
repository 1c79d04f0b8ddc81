/** The `ariel` namespace: a MagicalContainer that stores integers in
    insertion order and behaves as a stack, and its three iterator classes.
    The iterator classes have the same members with the same bodies, so they
    are one class here, tagged with the kind it stands for. */
module Ariel {
  import opened Elements
  import opened Traversal

  class MagicalContainer {
    var elements: seq<int32>

    /** A new container is empty. */
    constructor ()
      ensures elements == []
    {
      elements := [];
    }

    /** The implicit copy constructor: a deep copy of the element vector. */
    constructor Copy(other: MagicalContainer)
      ensures elements == other.elements
    {
      elements := other.elements;
    }

    /** The implicit copy assignment: this container's elements become a copy
        of `other`'s; the result is this container itself. */
    method Assign(other: MagicalContainer) returns (self: MagicalContainer)
      modifies this
      ensures self == this
      ensures elements == old(other.elements)
    {
      elements := other.elements;
      self := this;
    }

    /** Appends `element` after every element already stored. */
    method AddElement(element: int32)
      modifies this
      ensures elements == Push(old(elements), element)
    {
      elements := elements + [element];
    }

    /** Drops the last element stored, whatever `element` is. */
    method RemoveElement(element: int32)
      requires |elements| > 0
      modifies this
      ensures elements == Pop(old(elements))
    {
      elements := elements[..|elements| - 1];
    }

    /** The number of stored elements. */
    function Size(): (n: nat)
      reads this
      ensures n == |elements|
    {
      |elements|
    }
  }

  /** Which of the three iterator classes an iterator is. No member depends
      on it. */
  datatype IteratorKind = Ascending | SideCross | Prime

  /** AscendingIterator, SideCrossIterator and PrimeIterator: a reference to
      a container and a cursor into its elements, kept as an index. */
  class Iterator {
    const kind: IteratorKind
    const container: MagicalContainer
    var current: nat

    /** An iterator over `c` starts at the first element and leaves `c`
        alone. */
    constructor (kind: IteratorKind, c: MagicalContainer)
      ensures this.kind == kind && container == c
      ensures current == Begin()
      ensures c.elements == old(c.elements)
    {
      this.kind := kind;
      container := c;
      current := 0;
    }

    /** The copy constructor: same container, same position. */
    constructor Copy(other: Iterator)
      ensures kind == other.kind && container == other.container
      ensures current == other.current
    {
      kind := other.kind;
      container := other.container;
      current := other.current;
    }

    /** Copy assignment does nothing to this iterator and returns it. */
    method Assign(other: Iterator) returns (self: Iterator)
      requires other.kind == kind
      ensures self == this
    {
      self := this;
    }

    /** The position of the first element; the walk from it yields every
        element in insertion order. */
    function Begin(): (p: nat)
      reads this, container
      ensures p == 0 && p <= End()
      ensures Visit(container.elements, p) == container.elements
    {
      VisitFromBegin(container.elements);
      0
    }

    /** The position past the last element: as many steps from the beginning
        as the container has elements, with nothing left to read. */
    function End(): (p: nat)
      reads this, container
      ensures p == container.Size()
      ensures Visit(container.elements, p) == []
    {
      |container.elements|
    }

    /** The element under the cursor, which is the next value of the walk
        from the cursor; the rest of that walk starts one position later. */
    function Deref(): (v: int32)
      reads this, container
      requires current < End()
      ensures v == container.elements[current]
      ensures Visit(container.elements, current) == [v] + Visit(container.elements, current + 1)
    {
      container.elements[current]
    }

    /** Moves the cursor one element on; the container is not touched. */
    method Increment() returns (self: Iterator)
      requires current < End()
      modifies this
      ensures self == this
      ensures current == old(current) + 1
      ensures container.elements == old(container.elements)
    {
      current := current + 1;
      self := this;
    }

    /** `operator==`: false for every pair, this iterator included. */
    predicate Equal(other: Iterator)
      ensures !Equal(other)
    {
      false
    }

    /** `operator!=`: false for every pair, this iterator included. */
    predicate NotEqual(other: Iterator)
      ensures !NotEqual(other)
    {
      false
    }

    /** `operator>`: false for every pair, this iterator included. */
    predicate Greater(other: Iterator)
      ensures !Greater(other)
    {
      false
    }

    /** `operator<`: false for every pair, this iterator included. */
    predicate Less(other: Iterator)
      ensures !Less(other)
    {
      false
    }
  }

  /** No comparison ever holds: an iterator is not equal to itself, and for
      any pair neither `==` nor `!=` holds, so they are not each other's
      negation, and `<`, `>` order nothing. */
  lemma ComparisonsNeverHold(a: Iterator, b: Iterator)
    ensures !a.Equal(a) && !a.NotEqual(a)
    ensures !a.Equal(b) && !a.NotEqual(b)
    ensures !a.Less(b) && !a.Greater(b) && !b.Less(a) && !b.Greater(a)
  {
  }

  /** A copy and its original do not share storage: after copying, removing
      from the original and adding `x` to the copy, each holds only its own
      change. */
  method CopiesAreIndependent(original: MagicalContainer, removed: int32, x: int32)
    returns (copy: MagicalContainer)
    requires |original.elements| > 0
    modifies original
    ensures fresh(copy)
    ensures original.elements == Pop(old(original.elements))
    ensures copy.elements == Push(old(original.elements), x)
  {
    copy := new MagicalContainer.Copy(original);
    original.RemoveElement(removed);
    copy.AddElement(x);
  }

  /** After `target = source`, adding `x` to the source leaves the target
      with the source's old contents. */
  method AssignmentIsIndependent(target: MagicalContainer, source: MagicalContainer, x: int32)
    requires target != source
    modifies target, source
    ensures target.elements == old(source.elements)
    ensures source.elements == Push(old(source.elements), x)
  {
    var _ := target.Assign(source);
    source.AddElement(x);
  }

  /** Performs `calls` on `c` in order, through its own methods: the result
      is what `Run` says of the old contents. */
  method Perform(c: MagicalContainer, calls: seq<Call>)
    requires Defined(c.elements, calls)
    modifies c
    ensures c.elements == Run(old(c.elements), calls)
  {
    var i := 0;
    while i < |calls|
      invariant 0 <= i <= |calls|
      invariant Defined(c.elements, calls[i..])
      invariant Run(c.elements, calls[i..]) == Run(old(c.elements), calls)
    {
      assert calls[i..][1..] == calls[i + 1..];
      match calls[i] {
        case AddElement(x) => c.AddElement(x);
        case RemoveElement(v) => c.RemoveElement(v);
      }
      i := i + 1;
    }
    assert calls[i..] == [];
  }

  /** A new container, `n` additions in a loop, then `m <= n` removals in a
      loop: the size is `n - m`. */
  method AddThenRemoveLoops(n: nat, m: nat) returns (c: MagicalContainer)
    requires m <= n
    ensures c.Size() == n - m
  {
    c := new MagicalContainer();
    var i := 0;
    while i < n
      invariant 0 <= i <= n
      invariant c.Size() == i
    {
      c.AddElement(0);
      i := i + 1;
    }
    i := 0;
    while i < m
      invariant 0 <= i <= m
      invariant c.Size() == n - i
    {
      c.RemoveElement(0);
      i := i + 1;
    }
  }

  /** Walks `it` from the beginning to the end of its container with `*` and
      `++`, collecting what each dereference reads: exactly the elements in
      insertion order. */
  method WalkToEnd(it: Iterator) returns (out: seq<int32>)
    requires it.current == 0
    modifies it
    ensures out == it.container.elements
    ensures it.current == it.End()
  {
    out := [];
    VisitFromBegin(it.container.elements);
    while it.current < it.End()
      invariant it.current <= it.End()
      invariant out + Visit(it.container.elements, it.current) == it.container.elements
      decreases it.End() - it.current
    {
      var v := it.Deref();
      out := out + [v];
      var _ := it.Increment();
    }
  }

  /** Iterators of any two kinds over one container, each walked from its
      start to the end with `*` and `++`, read the same values: every kind
      walks the insertion order. */
  method KindsAgree(c: MagicalContainer, k1: IteratorKind, k2: IteratorKind)
    returns (first: seq<int32>, second: seq<int32>)
    ensures first == second == c.elements
  {
    var a := new Iterator(k1, c);
    var b := new Iterator(k2, c);
    first := WalkToEnd(a);
    second := WalkToEnd(b);
  }
}
