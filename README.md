# MagicalContainer, modelled in Dafny

A Dafny model of `ariel::MagicalContainer` (`sources/MagicalContainer.hpp`).
The container wraps a vector of `int` and behaves as a stack:
- `addElement` appends.
- `removeElement` drops the last element and ignores its argument.
- `size` reports the count.

Its three nested iterator classes are `AscendingIterator`, `SideCrossIterator` and `PrimeIterator`. The names describe three orderings, but the bodies are identical stubs. Each is a cursor into the container's raw insertion order:
- It starts at the first element.
- `++` moves one element on.
- `*` reads the element under the cursor.
- `begin()`/`end()` are the vector's own ends.
- All four comparison operators return `false`.

The model follows the header as written, not the sorted, side-cross and prime orderings that the class names and the test file describe.

Files and modules:
- `elements.dfy`, module `Elements`: the element store as a value (`seq<int32>`). `Push` and `Pop` are what `push_back` and `pop_back` do to it. `Run` gives the store after a sequence of `addElement`/`removeElement` calls, and the lemmas about `Run` cover sizes, ignored removal arguments and contents.
- `traversal.dfy`, module `Traversal`: `Visit` lists what a cursor yields when it is dereferenced and advanced until it reaches the end. Its lemmas show this is exactly the insertion order.
- `magical_container.dfy`, module `Ariel`: the class `MagicalContainer` with the field `elements`, which its methods reassign. The class `Iterator` stands for the three iterator classes and is tagged by an `IteratorKind`. It holds a `const` reference to its container and a `current` index, which `Increment` advances. The module also has client methods showing that copies are independent, and one that walks an iterator of each of two kinds from start to end with `*` and `++` and collects the same values, the insertion order, from both.

## Model

| member | source | states |
|---|---|---|
| `Elements.Push` | sources/MagicalContainer.hpp:15 | appending keeps every earlier element in place, grows the size by exactly one, and puts the new element last |
| `Elements.Pop` | sources/MagicalContainer.hpp:16 | removal needs a non-empty store, shrinks it by exactly one, and pushing the removed last element back restores the input |
| `Elements.PopUndoesPush` | sources/MagicalContainer.hpp:15-16 | removing right after adding restores the previous contents, so removal is the inverse of addition |
| `Elements.RunSize` | sources/MagicalContainer.hpp:15-17 | after any sequence of calls that never removes from an empty container, the size is the start size plus the additions minus the removals |
| `Elements.RunIgnoresRemovalArguments` | sources/MagicalContainer.hpp:16 | two call sequences that differ only in the values passed to `removeElement` are defined alike and leave identical contents |
| `Elements.RunAppend` | sources/MagicalContainer.hpp:15-16 | performing one call sequence and then another is the same as performing their concatenation, both for definedness and for the resulting contents |
| `Elements.RunAddEach` | sources/MagicalContainer.hpp:15 | adding the values `xs` one by one appends exactly `xs`, in order |
| `Elements.RunRemoveEach` | sources/MagicalContainer.hpp:16 | `k` removals from a store of at least `k` elements drop its last `k` elements, whatever arguments are passed |
| `Elements.AddsThenRemoves` | sources/MagicalContainer.hpp:13-17 | starting from an empty container, N additions followed by M ≤ N removals are defined and leave size N−M, holding the first N−M values added, in order |
| `Traversal.VisitFrom` | sources/MagicalContainer.hpp:40-46 | dereferencing and advancing from any position until the end yields exactly the remaining elements in insertion order, with nothing skipped, repeated or reordered |
| `Traversal.VisitFromBegin` | sources/MagicalContainer.hpp:48-49 | the walk from the first position to the end yields the whole store in insertion order |
| `Ariel.MagicalContainer.constructor` | sources/MagicalContainer.hpp:13 | a new container is empty, so its size is 0 |
| `Ariel.MagicalContainer.Copy` | sources/MagicalContainer.hpp:10-13 | the implicit copy constructor gives a container with equal contents |
| `Ariel.MagicalContainer.Assign` | sources/MagicalContainer.hpp:10-13 | the implicit copy assignment makes the target's contents equal to the source's and returns the target |
| `Ariel.MagicalContainer.AddElement` | sources/MagicalContainer.hpp:15 | the new contents are the old contents with the element appended (see `Elements.Push`) |
| `Ariel.MagicalContainer.RemoveElement` | sources/MagicalContainer.hpp:16 | requires a non-empty container; the new contents are the old ones without their last element, and the argument plays no part |
| `Ariel.MagicalContainer.Size` | sources/MagicalContainer.hpp:17 | `size()` always equals the element count |
| `Ariel.Iterator.constructor` | sources/MagicalContainer.hpp:29 | an iterator built from a container refers to that container, starts at the begin position and leaves the container's contents unchanged (the same constructor is at lines 60 and 91) |
| `Ariel.Iterator.Copy` | sources/MagicalContainer.hpp:30 | the copy constructor copies both the container reference and the position (likewise lines 61 and 92) |
| `Ariel.Iterator.Assign` | sources/MagicalContainer.hpp:33 | copy assignment `it1 = it2` changes nothing in `it1` and returns `it1` itself (likewise lines 64 and 95) |
| `Ariel.Iterator.Begin` | sources/MagicalContainer.hpp:48 | `begin()` is position 0, no later than `end()`, and walking from it yields every element in insertion order, for every iterator kind (likewise lines 79 and 110) |
| `Ariel.Iterator.End` | sources/MagicalContainer.hpp:49 | `end()` is the position `size()`, past the last element, where the walk has nothing left to yield (likewise lines 80 and 111) |
| `Ariel.Iterator.Deref` | sources/MagicalContainer.hpp:40 | `*` needs a position before the end; it returns the element at the cursor, which is the next value of the walk from the cursor, and the rest of that walk starts one position later (likewise lines 71 and 102) |
| `Ariel.Iterator.Increment` | sources/MagicalContainer.hpp:42-46 | `++` requires a position before the end, advances the position by exactly one, leaves the container unchanged and returns the iterator itself (likewise lines 73-77 and 104-108) |
| `Ariel.ComparisonsNeverHold` | sources/MagicalContainer.hpp:35-38 | `==`, `!=`, `<` and `>` are false for every pair of iterators. Even an iterator compared with itself is not equal, and `==` and `!=` are never each other's negation (likewise lines 66-69 and 97-100) |
| `Ariel.CopiesAreIndependent` | sources/MagicalContainer.hpp:10-16 | after copying a container, a removal from the original and an addition to the copy each change only their own container |
| `Ariel.AssignmentIsIndependent` | sources/MagicalContainer.hpp:10-15 | after `target = source`, a later addition to the source leaves the target holding the source's earlier contents |
| `Ariel.Iterator.Equal` | sources/MagicalContainer.hpp:35 | `operator==` is false for every pair, an iterator compared with itself included (likewise lines 66 and 97) |
| `Ariel.Iterator.NotEqual` | sources/MagicalContainer.hpp:36 | `operator!=` is false for every pair, an iterator compared with itself included (likewise lines 67 and 98) |
| `Ariel.Iterator.Greater` | sources/MagicalContainer.hpp:37 | `operator>` is false for every pair (likewise lines 68 and 99) |
| `Ariel.Iterator.Less` | sources/MagicalContainer.hpp:38 | `operator<` is false for every pair (likewise lines 69 and 100) |
| `Ariel.Perform` | sources/MagicalContainer.hpp:15-16 | performing a defined sequence of `addElement`/`removeElement` calls on a container, one call at a time, leaves it holding `Elements.Run` of its old contents and those calls, so the value-level lemmas about `Run` hold of the object |
| `Ariel.AddThenRemoveLoops` | sources/MagicalContainer.hpp:13-17 | a new container given `n` additions in a loop and then `m <= n` removals in a loop has size `n - m` |
| `Ariel.WalkToEnd` | sources/MagicalContainer.hpp:40-49 | dereferencing and incrementing an iterator from its start until it reaches `end()` reads exactly the container's elements in insertion order, and stops at `end()` |
| `Ariel.KindsAgree` | sources/MagicalContainer.hpp:21-112 | iterators of any two kinds over the same container, each walked from start to end with `*` and `++`, both read exactly the container's elements in insertion order |

## Left out

- The default iterator constructors (lines 28, 59, 90) are left out. They set a null container and leave `current` singular. On such an iterator, `begin()`/`end()` dereference the null container, and `*`/`++` act on a singular vector iterator. The comparisons, `operator=` and the copy constructor stay defined, and the first two return constants, so leaving these constructors out loses only those constant results and copies of such iterators.
- `Ariel.MagicalContainer.RemoveElement`: `pop_back` on an empty vector is undefined behaviour in C++. The model makes non-emptiness a precondition. The header has no error path, so the model has none either. The test file expects a throw from a removal on a five-element container (Test.cpp:25-26); `pop_back` succeeds there, and the model removes the last element as the header does.
- `Ariel.Iterator.Deref` and `Ariel.Iterator.Increment`: dereferencing or incrementing at or past `end()` is undefined behaviour. Both require a position before the end.
- Iterator invalidation is not modelled. The cursor is an index plus a container reference, so a `push_back` that reallocates, or a `pop_back`, does not invalidate it the way it invalidates a `std::vector::const_iterator`.
- `begin()`/`end()` return the vector's own iterators. They are modelled as the positions 0 and `size()`.
- The ascending, side-cross and prime orderings are left out, and so are position-based comparisons. The header implements none of them. As a result, the test file's expectations about traversal order, `begin`/`end` values and comparison results disagree with the header and are not modelled. For the same reason, its expectation that removing from a five-element container throws is not modelled. Test.cpp:51-52 also expects size 5 after `container10 = container5`, but `container5` holds 4 elements after the removal at Test.cpp:42, so under the header, and in this model, the assigned container's size is 4.
- Destructors (`= default`) have no observable effect and are not modelled.
- `size_t` is modelled as an unbounded `nat`. The element count never nears its limit.
