# compact-list, modelled in Dafny

compact-list offers a growable, array-backed list with three operations,
`size`, `get(index)` and `add(element)` (`CompactList`). It has two
implementations:

- `ObjectCompactList` keeps references in an `Object[]` that starts with ten
  slots. `add` rejects null, grows the array to `max(2 * length, size + 1)`
  when it is full, and stores the element at index `size`. `get` checks the
  index against `size`.
- `CompactListGenerator` writes, with ASM, the JVM bytecode of the same list
  specialised to a primitive kind: a primitive array `data` and an `int`
  `size`, a constructor, `size`, `add`, `get`, and the private `checkRange`
  and `ensureCapacity`. Each method body is a fixed list of instructions with
  a declared maximum stack depth and local-variable count. The class writer
  is created without `COMPUTE_MAXS` or `COMPUTE_FRAMES`, so the JVM's
  verifier relies on those declarations and the hand-written `F_SAME`
  frames as given.

The model has these parts:

- `common.dfy`: Java references (`Null` or `Obj`), the exceptions, `int`
  wrap-around and `Math.max`.
- `capacity.dfy`: the default capacity and the growth rule shared by both
  lists. Array lengths after `n` adds are given by `CapacityAfter`.
- `object_list.dfy`: `ObjectCompactList` as a class over an
  `array<Ref<T>>` and an `int32` size, with a ghost sequence of the elements.
- `generated_list.dfy`: the generated class as it behaves at run time,
  read off the emitted instructions. It is a class over an `array<P>`, where
  `P` is the primitive kind's values, boxing is the identity, and `zero` is
  the kind's default value.
- `bytecode.dfy` and `generator.dfy`: the emitted field layout and the six
  method bodies as abstract instructions. Each instruction has its
  operand-stack effect in slots: `long` and `double` take two slots
  (Java Virtual Machine Specification, Java SE 8, section 2.11.1), and
  effects follow chapter 6 of that specification.
- `stack_check.dfy`: an operand-stack checker in the manner of the
  JVM's type-checking verifier, restricted to depths and local indices
  (sections 4.7.3, 4.7.4 and 4.10.1 of that specification). It comes with a
  proof that, along every control-flow path of an accepted body, the depth
  is never negative, stays within `max_stack`, and is zero on every edge
  into an `F_SAME` label.
- `emitted_stacks.dfy`: every emitted body passes that checker with
  its declared `visitMaxs`, for every primitive kind.
- `scenarios.dfy`: what the list tests exercise, for both lists.
- `execution.dfy`: a small JVM that runs the emitted bodies instruction by
  instruction (chapter 6 of that specification) over a heap holding the
  list object's two fields and every array allocated so far. Calls of the
  class's own private methods run their emitted bodies one frame deeper;
  the library methods are given by what they do.
- `run_steps.dfy`: each emitted body run a few instructions at a time, one
  lemma per instruction.
- `emitted_runs.dfy`: the result of running each emitted body in full, on
  a heap that holds a list of given elements. They state for the bytecode
  the same outcomes that `generated_list.dfy` states for the class's
  methods; the two sets of contracts are stated side by side and no lemma
  derives one from the other.

## Model

| member | source | states |
|---|---|---|
| `Capacity.Grown` | src/main/java/com/dmitrievanthony/clist/ObjectCompactList.java:62 | the capacity asked for, `Math.max(length * 2, minCapacity)` with 32-bit wrap-around, is at least `minCapacity` |
| `Capacity.GrownIsLonger` | src/main/java/com/dmitrievanthony/clist/ObjectCompactList.java:61-64 | when the array is too short, the grown length exceeds the old one and is never negative, so the `OutOfMemoryError` guard cannot fire |
| `Capacity.GrownDoubles` | src/main/java/com/dmitrievanthony/clist/ObjectCompactList.java:62 | without overflow the new length is exactly `max(2 * length, minCapacity)` |
| `Capacity.GrownOnOverflow` | src/main/java/com/dmitrievanthony/clist/CompactListGenerator.java:355-364 | when `length * 2` overflows it wraps negative and the array grows to exactly `minCapacity`, so the missing overflow check never yields a negative length |
| `Capacity.GrownByOne` | src/main/java/com/dmitrievanthony/clist/CompactListGenerator.java:355-364 | from 2^30 slots on a full array grows by exactly one slot, so from then on every `add` reallocates and copies the whole array |
| `Capacity.CapacityAfter` | src/main/java/com/dmitrievanthony/clist/ObjectCompactList.java:13-16 | after `n` adds to a new list the array has at least `n` and at least ten slots |
| `Capacity.CapacityWithinDouble` | src/main/java/com/dmitrievanthony/clist/ObjectCompactList.java:60-68 | past ten elements the array of a list of `n` elements has at most `2 * (n - 1)` slots |
| `Capacity.CapacityAfterEleven` | src/test/java/com/dmitrievanthony/clist/CompactListAbstractTest.java:47-59 | ten adds keep the default ten slots; the eleventh doubles them to twenty |
| `ObjectList.ObjectCompactList.constructor` | src/main/java/com/dmitrievanthony/clist/ObjectCompactList.java:13-19 | a new list is empty, with an array of ten null slots |
| `ObjectList.ObjectCompactList.Size` | src/main/java/com/dmitrievanthony/clist/ObjectCompactList.java:22-24 | `size()` is the number of elements added |
| `ObjectList.ObjectCompactList.CheckRange` | src/main/java/com/dmitrievanthony/clist/ObjectCompactList.java:50-53 | throws `IndexOutOfBoundsException` if and only if `index < 0` or `index >= size` |
| `ObjectList.ObjectCompactList.Get` | src/main/java/com/dmitrievanthony/clist/ObjectCompactList.java:29-33 | returns the element added at `index` when `0 <= index < size`, and throws `IndexOutOfBoundsException` otherwise; reads only |
| `ObjectList.ObjectCompactList.EnsureCapacity` | src/main/java/com/dmitrievanthony/clist/ObjectCompactList.java:60-68 | no change when the array has `minCapacity` slots; otherwise a copy of length `Grown(length, minCapacity)` that keeps the old slots; `OutOfMemoryError` exactly when that length is negative; elements and size unchanged |
| `ObjectList.ObjectCompactList.Add` | src/main/java/com/dmitrievanthony/clist/ObjectCompactList.java:37-42 | null throws `NullPointerException` with nothing changed; otherwise the element is appended, `size` goes up by one, earlier elements stay, capacity never shrinks; at `size == 2^31 - 1` the store throws after `size` wrapped |
| `GeneratedList.GeneratedCompactList.constructor` | src/main/java/com/dmitrievanthony/clist/CompactListGenerator.java:144-165 | a new list is empty, with an array of ten default values |
| `GeneratedList.GeneratedCompactList.Size` | src/main/java/com/dmitrievanthony/clist/CompactListGenerator.java:172-186 | `size()` is the number of elements the list holds |
| `GeneratedList.GeneratedCompactList.CheckRange` | src/main/java/com/dmitrievanthony/clist/CompactListGenerator.java:281-323 | `iflt` and the fall-through after `if_icmplt` reach the throw if and only if `index < 0` or `index >= size` |
| `GeneratedList.GeneratedCompactList.Get` | src/main/java/com/dmitrievanthony/clist/CompactListGenerator.java:247-274 | returns the element at `index` when it is in range, and throws `IndexOutOfBoundsException` otherwise; reads only |
| `GeneratedList.GeneratedCompactList.EnsureCapacity` | src/main/java/com/dmitrievanthony/clist/CompactListGenerator.java:330-386 | no change when the array has `minCapacity` slots; otherwise a copy of length `Grown(length, minCapacity)` padded with the default value; a negative length would make `copyOf` throw |
| `GeneratedList.GeneratedCompactList.Add` | src/main/java/com/dmitrievanthony/clist/CompactListGenerator.java:193-240 | grows first; `size` goes up by one even when the element is null; the element, or for null the default value, ends up at the old `size` |
| `GeneratedList.GeneratedCompactList.AddCorrected` | src/main/java/com/dmitrievanthony/clist/CompactListGenerator.java:211-234 | with the store before the `size` update, a null element throws with the elements and `size` unchanged |
| `Generator.FieldLayout` | src/main/java/com/dmitrievanthony/clist/CompactListGenerator.java:134-137 | two private fields, `data` of type array of the kind and `size` of type `int`; the kind can be read back from `data`'s descriptor |
| `Generator.ConstructorShape` | src/main/java/com/dmitrievanthony/clist/CompactListGenerator.java:150-163 | `ConstructorBody` is the seven instructions emitted in order, with `visitMaxs(2, 1)`: `Object.<init>` is called first, and `data` is the only field written |
| `Generator.SizeShape` | src/main/java/com/dmitrievanthony/clist/CompactListGenerator.java:178-184 | `SizeBody` is `aload_0; getfield size; ireturn` with `visitMaxs(1, 1)`, and writes no field |
| `Generator.AddShape` | src/main/java/com/dmitrievanthony/clist/CompactListGenerator.java:199-238 | `AddBody` is the twenty instructions emitted in order, with `visitMaxs(5, 2)`: `ensureCapacity` runs before any field write, and the `size` write-back (line 226) precedes the unbox (line 232) and the array store |
| `Generator.GetShape` | src/main/java/com/dmitrievanthony/clist/CompactListGenerator.java:253-272 | `GetBody` is the nine instructions emitted in order, with `visitMaxs(2, 2)`: `checkRange` before the array load, then `valueOf` and `areturn`; no field write |
| `Generator.CheckRangeShape` | src/main/java/com/dmitrievanthony/clist/CompactListGenerator.java:291-321 | `CheckRangeBody` is the thirteen instructions emitted in order, with `visitMaxs(2, 2)`: `iflt` to the throw at label 1, `if_icmplt` to the return at label 2, both labels with `F_SAME` frames; no field write |
| `Generator.EnsureCapacityShape` | src/main/java/com/dmitrievanthony/clist/CompactListGenerator.java:339-384 | `EnsureCapacityBody` is the twenty-one instructions emitted in order, with `visitMaxs(3, 3)`: `if_icmpge` to the return at label 1, the new length kept in local 2, and `data` written once, with the result of `copyOf` |
| `Generator.AddCorrectedShape` | src/main/java/com/dmitrievanthony/clist/CompactListGenerator.java:211-234 | `AddBodyCorrected` is the emitted `add` reordered so that the unbox and the array store come before the one field write, `size + 1`, with max stack 4 and max locals 2 |
| `ObjectList.ObjectCompactList.Valid` | src/main/java/com/dmitrievanthony/clist/ObjectCompactList.java:13-19 | the list invariant: `0 <= size <= data.length`, the first `size` slots hold the elements, and a slot is null exactly when it is at or past `size` |
| `GeneratedList.GeneratedCompactList.Valid` | src/main/java/com/dmitrievanthony/clist/CompactListGenerator.java:134-161 | the list invariant: `0 <= size <= data.length`, `data[..size]` is the elements, and the slots past `size` hold the default value |
| `EmittedStacks.ConstructorAccepted` | src/main/java/com/dmitrievanthony/clist/CompactListGenerator.java:144-165 | the constructor passes the stack check with max stack 2 and max locals 1 |
| `EmittedStacks.SizeAccepted` | src/main/java/com/dmitrievanthony/clist/CompactListGenerator.java:172-186 | `size` passes with max stack 1 and max locals 1 |
| `EmittedStacks.AddAccepted` | src/main/java/com/dmitrievanthony/clist/CompactListGenerator.java:193-240 | `add` passes with max stack 5 and max locals 2; the depth before the array store is `2 + Slots(k)` |
| `EmittedStacks.GetAccepted` | src/main/java/com/dmitrievanthony/clist/CompactListGenerator.java:247-274 | `get` passes with max stack 2 and max locals 2; the loaded element takes `Slots(k)` slots |
| `EmittedStacks.CheckRangeAccepted` | src/main/java/com/dmitrievanthony/clist/CompactListGenerator.java:281-323 | `checkRange` passes with max stack 2 and max locals 2; both jumps leave an empty stack |
| `EmittedStacks.EnsureCapacityAccepted` | src/main/java/com/dmitrievanthony/clist/CompactListGenerator.java:330-386 | `ensureCapacity` passes with max stack 3 and max locals 3, local 2 included |
| `EmittedStacks.AddCorrectedAccepted` | src/main/java/com/dmitrievanthony/clist/CompactListGenerator.java:211-238 | the corrected `add` passes with max stack 4 and max locals 2 |
| `EmittedStacks.EmittedBodiesKeepStackDiscipline` | src/main/java/com/dmitrievanthony/clist/CompactListGenerator.java:163-384 | along every path of every emitted body: the depth never drops below zero, stays within the declared max stack, locals stay below max locals, and the stack is empty at each `F_SAME` label and on each jump into one |
| `StackCheck.StackDisciplineOnPaths` | src/main/java/com/dmitrievanthony/clist/CompactListGenerator.java:303-317 | for any body the checker accepts, the same guarantees hold along every control-flow path |
| `StackCheck.TraceFollowsPath` | src/main/java/com/dmitrievanthony/clist/CompactListGenerator.java:303-317 | the depth the checker records at an instruction is the depth on every path that reaches it, or zero at an `F_SAME` label |
| `StackCheck.CertifiedTrace` | src/main/java/com/dmitrievanthony/clist/CompactListGenerator.java:163-384 | a list of depths that the checker reproduces instruction by instruction is exactly its trace |
| `EmittedRuns.ConstructorRun` | src/main/java/com/dmitrievanthony/clist/CompactListGenerator.java:144-165 | the emitted constructor returns normally and leaves an empty list whose `data` is a newly allocated array of ten default values; older arrays are untouched |
| `EmittedRuns.SizeRun` | src/main/java/com/dmitrievanthony/clist/CompactListGenerator.java:172-186 | the emitted `size` returns the number of elements and changes nothing |
| `EmittedRuns.CheckRangeRun` | src/main/java/com/dmitrievanthony/clist/CompactListGenerator.java:281-323 | the emitted `checkRange` returns exactly when `0 <= index < size` and otherwise throws `IndexOutOfBoundsException`, changing nothing either way |
| `EmittedRuns.GetRun` | src/main/java/com/dmitrievanthony/clist/CompactListGenerator.java:247-274 | the emitted `get` returns the boxed element at `index` when it is in range and otherwise throws `IndexOutOfBoundsException`; the heap is unchanged |
| `EmittedRuns.EnsureCapacityRun` | src/main/java/com/dmitrievanthony/clist/CompactListGenerator.java:330-386 | the emitted `ensureCapacity` always returns normally with the same elements and at least `minCapacity` slots; nothing changes when the array is long enough; otherwise `data` is a new array of length `Grown(length, minCapacity)` that starts with the old array, so `copyOf` never sees a negative length |
| `EmittedRuns.AddRun` | src/main/java/com/dmitrievanthony/clist/CompactListGenerator.java:193-240 | below 2^31 - 1 elements the emitted `add` never gets stuck, keeps the array length when there is room and otherwise grows it to `Grown(length, size + 1)`; a boxed element is appended; null throws `NullPointerException` after the default value was appended; at 2^31 - 1 elements `size` wraps to -2^31 and then the unbox (null, `NullPointerException`) or the store (`ArrayIndexOutOfBoundsException`) throws |
| `EmittedRuns.AddAfterGrowth` | src/main/java/com/dmitrievanthony/clist/CompactListGenerator.java:211-238 | the part of `add` after the growth call: the same outcomes, on an array with room for one more element |
| `EmittedRuns.AddCorrectedRun` | src/main/java/com/dmitrievanthony/clist/CompactListGenerator.java:211-234 | the corrected `add` appends a boxed element below 2^31 - 1 elements, throws `NullPointerException` with the list unchanged for null at any size, and throws `ArrayIndexOutOfBoundsException` with the list unchanged at 2^31 - 1 elements |
| `EmittedRuns.AddCorrectedAfterGrowth` | src/main/java/com/dmitrievanthony/clist/CompactListGenerator.java:211-234 | the part of the corrected `add` after the growth call: the same outcomes, with the heap exactly unchanged when it throws |
| `Scenarios.ObjectAddAllThenGet` | src/test/java/com/dmitrievanthony/clist/CompactListAbstractTest.java:32-59 | adding `s` to a new reference list gives size `|s|`, `get(i) == s[i]`, and capacity `CapacityAfter(|s|)` |
| `Scenarios.GeneratedAddAllThenGet` | src/test/java/com/dmitrievanthony/clist/CompactListAbstractTest.java:32-59 | the same for a generated list |
| `Scenarios.GetOnNewLists` | src/test/java/com/dmitrievanthony/clist/CompactListAbstractTest.java:73-86 | `get` on a new list of either kind throws `IndexOutOfBoundsException` for every index |
| `Scenarios.ObjectAddNull` | src/test/java/com/dmitrievanthony/clist/CompactListAbstractTest.java:64-68 | `add(null)` on a new reference list throws `NullPointerException` and the list stays empty |
| `Scenarios.GeneratedAddNull` | src/main/java/com/dmitrievanthony/clist/CompactListGenerator.java:220-232 | `add(null)` on a new generated list throws `NullPointerException`, yet `size` is 1 and `get(0)` returns the default value |
| `Scenarios.GeneratedAddNullCorrected` | src/main/java/com/dmitrievanthony/clist/CompactListGenerator.java:211-234 | with the corrected `add`, `add(null)` leaves a new generated list empty |

## Left out

- `DynamicClassLoader`, ASM's `ClassWriter` and `MethodVisitor`, and the class-file bytes: the instructions are modelled by what they do, not by their opcodes or encoding.
- The seven arguments of the generator's constructor are taken to agree with one primitive kind (descriptor, wrapper type, unboxing method, `newarray` operand, array load and store). The factory that picks them is not part of this model.
- Values of the primitive kinds, floating point included, and `valueOf` caching: elements are abstract values, and boxing and unboxing are the identity.
- `checkcast` of an element that is not of the wrapper type: the generated list's `add` takes a boxed value of the right kind or null.
- `GeneratedList.GeneratedCompactList.Add`: after an `add` on a list that already holds 2^31 - 1 elements, `size` has wrapped to -2^31 and the model no longer describes the list; the same holds for `ObjectList.ObjectCompactList.Add`. A JVM cannot allocate an array that long.
- Slots in the small JVM: a `long` or `double` is one value on its operand stack. Slot counts are checked separately, by the stack checker.
- Backward jumps: control in the emitted bodies only moves forward, and the small JVM treats a backward jump as stuck.
- Objects other than the one list: fields are read and written on `this` only, and the exception object and wrapper objects are plain values with no identity.
- Call depth: a call of the class's own methods at depth 0 throws `StackOverflowError`; the theorems for `add` and `get` ask for one frame of room.
- Library methods (`Object.<init>`, the exception's constructor, unboxing, `valueOf`, `Math.max`, `Arrays.copyOf`) are given by their documented effect, not run from their code.
- The JMH benchmark: it measures time only.

## Findings

| source | as written | input that shows it | evidently intended | confidence | as-written member | corrected member |
|---|---|---|---|---|---|---|
| src/main/java/com/dmitrievanthony/clist/CompactListGenerator.java:220-232 | the emitted `add` writes `size + 1` back (line 226) before it unboxes the element (line 232) | `add(null)` on a new list of any primitive kind: `NullPointerException`, then `size()` is 1 and `get(0)` is the default value | a null element is rejected with the list unchanged, as `ObjectCompactList.add` does at line 38 | high; not executed | `Scenarios.GeneratedAddNull` | `GeneratedList.GeneratedCompactList.AddCorrected` |

The missing overflow check in the generated `ensureCapacity` (marked as a
to-do at line 364) is sometimes read as a way to get a negative capacity and
a failed allocation. The code does not allow that, although the overflow
does change how the array grows. Growth happens only when
`length < minCapacity`, and `Math.max` returns at least `minCapacity`, so the
new length is always larger than the old one (`Capacity.GrownIsLonger`).
When `length * 2` overflows, the array grows to exactly `minCapacity`
(`Capacity.GrownOnOverflow`). The model therefore adds no capacity error.
What the overflow does cost is speed: once the array has at least 2^30
slots, a full array grows by a single slot (`Capacity.GrownByOne`), so every
further `add` copies the whole array and appending becomes quadratic. For
the same reason the `OutOfMemoryError` guard of `ObjectCompactList` can
never fire.
The theorem about the emitted `ensureCapacity` on the small JVM
(`EmittedRuns.EnsureCapacityRun`) agrees: it always returns normally. The same
write-back before unboxing in the finding above shows up when the emitted
`add` is run on `null` (`EmittedRuns.AddRun`), and not in the corrected body
(`EmittedRuns.AddCorrectedRun`).
