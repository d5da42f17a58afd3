/**
 * Short runs of the emitted bodies: each lemma follows a body over a few
 * instructions from a given frame and heap, and states the frame and heap it
 * reaches, or how the body ends. The theorems about whole bodies are
 * assembled from these.
 */
module RunSteps {

  import opened Common
  import opened Capacity
  import opened Bytecode
  import opened Generator
  import opened Execution

  /** The first placement of label `l` is at `i`. */
  lemma LabelIndexAt(code: seq<Insn>, l: Label, i: nat)
    requires i < |code| && code[i] == PlaceSame(l)
    requires forall j :: 0 <= j < i ==> code[j] != PlaceSame(l)
    ensures LabelIndex(code, l) == Some(i)
  {
  }

  lemma SizeReadAt0<P>(ctx: Ctx<P>, h: Heap<P>, depth: nat)
    ensures Run(ctx, SizeBody(ctx.cls), Entry(map[0 := ThisV]), h, depth) ==
      Run(ctx, SizeBody(ctx.cls), Frame(1, [ThisV], map[0 := ThisV]), h, depth)
  {
    var b := SizeBody(ctx.cls);
    RunStep(ctx, b, Entry(map[0 := ThisV]), h, depth, Frame(1, [ThisV], map[0 := ThisV]), h);
  }

  lemma SizeReadAt1<P>(ctx: Ctx<P>, h: Heap<P>, depth: nat)
    ensures Run(ctx, SizeBody(ctx.cls), Frame(1, [ThisV], map[0 := ThisV]), h, depth) ==
      Run(ctx, SizeBody(ctx.cls), Frame(2, [IntV(h.size)], map[0 := ThisV]), h, depth)
  {
    var b := SizeBody(ctx.cls);
    RunStep(ctx, b, Frame(1, [ThisV], map[0 := ThisV]), h, depth, Frame(2, [IntV(h.size)], map[0 := ThisV]), h);
  }

  lemma SizeReadAt2<P>(ctx: Ctx<P>, h: Heap<P>, depth: nat)
    ensures Run(ctx, SizeBody(ctx.cls), Frame(2, [IntV(h.size)], map[0 := ThisV]), h, depth) ==
      Returned(h, Some(IntV(h.size)))
  {
    var b := SizeBody(ctx.cls);
    RunStop(ctx, b, Frame(2, [IntV(h.size)], map[0 := ThisV]), h, depth, Returned(h, Some(IntV(h.size))));
  }

  /** `size()`: load `this`, read `size`, return it. */
  lemma SizeRead<P>(ctx: Ctx<P>, h: Heap<P>, depth: nat)
    ensures Run(ctx, SizeBody(ctx.cls), Entry(map[0 := ThisV]), h, depth) ==
      Returned(h, Some(IntV(h.size)))
  {
    SizeReadAt0(ctx, h, depth);
    SizeReadAt1(ctx, h, depth);
    SizeReadAt2(ctx, h, depth);
  }

  lemma ConstructorInitAt0<P>(ctx: Ctx<P>, h: Heap<P>, depth: nat)
    ensures Run(ctx, ConstructorBody(ctx.cls, ctx.kind), Entry(map[0 := ThisV]), h, depth) ==
      Run(ctx, ConstructorBody(ctx.cls, ctx.kind), Frame(1, [ThisV], map[0 := ThisV]), h, depth)
  {
    var b := ConstructorBody(ctx.cls, ctx.kind);
    RunStep(ctx, b, Entry(map[0 := ThisV]), h, depth, Frame(1, [ThisV], map[0 := ThisV]), h);
  }

  lemma ConstructorInitAt1<P>(ctx: Ctx<P>, h: Heap<P>, depth: nat)
    ensures Run(ctx, ConstructorBody(ctx.cls, ctx.kind), Frame(1, [ThisV], map[0 := ThisV]), h, depth) ==
      Run(ctx, ConstructorBody(ctx.cls, ctx.kind), Frame(2, [], map[0 := ThisV]), h, depth)
  {
    var b := ConstructorBody(ctx.cls, ctx.kind);
    RunStep(ctx, b, Frame(1, [ThisV], map[0 := ThisV]), h, depth, Frame(2, [], map[0 := ThisV]), h);
  }

  lemma ConstructorInitAt2<P>(ctx: Ctx<P>, h: Heap<P>, depth: nat)
    ensures Run(ctx, ConstructorBody(ctx.cls, ctx.kind), Frame(2, [], map[0 := ThisV]), h, depth) ==
      Run(ctx, ConstructorBody(ctx.cls, ctx.kind), Frame(3, [ThisV], map[0 := ThisV]), h, depth)
  {
    var b := ConstructorBody(ctx.cls, ctx.kind);
    RunStep(ctx, b, Frame(2, [], map[0 := ThisV]), h, depth, Frame(3, [ThisV], map[0 := ThisV]), h);
  }

  /** The constructor calls `Object.<init>` on `this`. */
  lemma ConstructorInit<P>(ctx: Ctx<P>, h: Heap<P>, depth: nat)
    ensures Run(ctx, ConstructorBody(ctx.cls, ctx.kind), Entry(map[0 := ThisV]), h, depth) ==
      Run(ctx, ConstructorBody(ctx.cls, ctx.kind), Frame(3, [ThisV], map[0 := ThisV]), h, depth)
  {
    ConstructorInitAt0(ctx, h, depth);
    ConstructorInitAt1(ctx, h, depth);
    ConstructorInitAt2(ctx, h, depth);
  }

  lemma ConstructorArrayAt3<P>(ctx: Ctx<P>, h: Heap<P>, depth: nat)
    ensures Run(ctx, ConstructorBody(ctx.cls, ctx.kind), Frame(3, [ThisV], map[0 := ThisV]), h, depth) ==
      Run(ctx, ConstructorBody(ctx.cls, ctx.kind), Frame(4, [ThisV, IntV(10)], map[0 := ThisV]), h, depth)
  {
    var b := ConstructorBody(ctx.cls, ctx.kind);
    RunStep(ctx, b, Frame(3, [ThisV], map[0 := ThisV]), h, depth, Frame(4, [ThisV, IntV(10)], map[0 := ThisV]), h);
  }

  lemma ConstructorArrayAt4<P>(ctx: Ctx<P>, h: Heap<P>, depth: nat)
    ensures Run(ctx, ConstructorBody(ctx.cls, ctx.kind), Frame(4, [ThisV, IntV(10)], map[0 := ThisV]), h, depth) ==
      Run(ctx, ConstructorBody(ctx.cls, ctx.kind), Frame(5, [ThisV, ArrV(|h.arrays|)], map[0 := ThisV]), h.(arrays := h.arrays + [Filled(10, ctx.zero)]), depth)
  {
    var b := ConstructorBody(ctx.cls, ctx.kind);
    RunStep(ctx, b, Frame(4, [ThisV, IntV(10)], map[0 := ThisV]), h, depth, Frame(5, [ThisV, ArrV(|h.arrays|)], map[0 := ThisV]), h.(arrays := h.arrays + [Filled(10, ctx.zero)]));
  }

  lemma ConstructorArrayAt5<P>(ctx: Ctx<P>, h: Heap<P>, depth: nat)
    ensures Run(ctx, ConstructorBody(ctx.cls, ctx.kind), Frame(5, [ThisV, ArrV(|h.arrays|)], map[0 := ThisV]), h.(arrays := h.arrays + [Filled(10, ctx.zero)]), depth) ==
      Run(ctx, ConstructorBody(ctx.cls, ctx.kind), Frame(6, [], map[0 := ThisV]), h.(arrays := h.arrays + [Filled(10, ctx.zero)]).(data := ArrV(|h.arrays|)), depth)
  {
    var b := ConstructorBody(ctx.cls, ctx.kind);
    RunStep(ctx, b, Frame(5, [ThisV, ArrV(|h.arrays|)], map[0 := ThisV]), h.(arrays := h.arrays + [Filled(10, ctx.zero)]), depth, Frame(6, [], map[0 := ThisV]), h.(arrays := h.arrays + [Filled(10, ctx.zero)]).(data := ArrV(|h.arrays|)));
  }

  lemma ConstructorArrayAt6<P>(ctx: Ctx<P>, h: Heap<P>, depth: nat)
    ensures Run(ctx, ConstructorBody(ctx.cls, ctx.kind), Frame(6, [], map[0 := ThisV]), h.(arrays := h.arrays + [Filled(10, ctx.zero)]).(data := ArrV(|h.arrays|)), depth) ==
      Returned(h.(arrays := h.arrays + [Filled(10, ctx.zero)]).(data := ArrV(|h.arrays|)), None)
  {
    var b := ConstructorBody(ctx.cls, ctx.kind);
    RunStop(ctx, b, Frame(6, [], map[0 := ThisV]), h.(arrays := h.arrays + [Filled(10, ctx.zero)]).(data := ArrV(|h.arrays|)), depth, Returned(h.(arrays := h.arrays + [Filled(10, ctx.zero)]).(data := ArrV(|h.arrays|)), None));
  }

  /** The constructor allocates ten default values and stores the array in `data`. */
  lemma ConstructorArray<P>(ctx: Ctx<P>, h: Heap<P>, depth: nat)
    ensures Run(ctx, ConstructorBody(ctx.cls, ctx.kind), Frame(3, [ThisV], map[0 := ThisV]), h, depth) ==
      Returned(h.(arrays := h.arrays + [Filled(10, ctx.zero)]).(data := ArrV(|h.arrays|)), None)
  {
    ConstructorArrayAt3(ctx, h, depth);
    ConstructorArrayAt4(ctx, h, depth);
    ConstructorArrayAt5(ctx, h, depth);
    ConstructorArrayAt6(ctx, h, depth);
  }

  lemma CheckRangeNegativeAt0<P>(ctx: Ctx<P>, h: Heap<P>, index: int32, depth: nat)
    requires index < 0
    ensures Run(ctx, CheckRangeBody(ctx.cls), Entry(Args(IntV(index))), h, depth) ==
      Run(ctx, CheckRangeBody(ctx.cls), Frame(1, [IntV(index)], Args(IntV(index))), h, depth)
  {
    var b := CheckRangeBody(ctx.cls);
    RunStep(ctx, b, Entry(Args(IntV(index))), h, depth, Frame(1, [IntV(index)], Args(IntV(index))), h);
  }

  lemma CheckRangeNegativeAt1<P>(ctx: Ctx<P>, h: Heap<P>, index: int32, depth: nat)
    requires index < 0
    ensures Run(ctx, CheckRangeBody(ctx.cls), Frame(1, [IntV(index)], Args(IntV(index))), h, depth) ==
      Run(ctx, CheckRangeBody(ctx.cls), Frame(6, [], Args(IntV(index))), h, depth)
  {
    var b := CheckRangeBody(ctx.cls);
    LabelIndexAt(b.code, 1, 6);
    RunStep(ctx, b, Frame(1, [IntV(index)], Args(IntV(index))), h, depth, Frame(6, [], Args(IntV(index))), h);
  }

  /** `iflt` jumps to the throw for a negative index. */
  lemma CheckRangeNegative<P>(ctx: Ctx<P>, h: Heap<P>, index: int32, depth: nat)
    requires index < 0
    ensures Run(ctx, CheckRangeBody(ctx.cls), Entry(Args(IntV(index))), h, depth) ==
      Run(ctx, CheckRangeBody(ctx.cls), Frame(6, [], Args(IntV(index))), h, depth)
  {
    CheckRangeNegativeAt0(ctx, h, index, depth);
    CheckRangeNegativeAt1(ctx, h, index, depth);
  }

  lemma CheckRangeCompareAt0<P>(ctx: Ctx<P>, h: Heap<P>, index: int32, depth: nat)
    requires index >= 0
    ensures Run(ctx, CheckRangeBody(ctx.cls), Entry(Args(IntV(index))), h, depth) ==
      Run(ctx, CheckRangeBody(ctx.cls), Frame(1, [IntV(index)], Args(IntV(index))), h, depth)
  {
    var b := CheckRangeBody(ctx.cls);
    RunStep(ctx, b, Entry(Args(IntV(index))), h, depth, Frame(1, [IntV(index)], Args(IntV(index))), h);
  }

  lemma CheckRangeCompareAt1<P>(ctx: Ctx<P>, h: Heap<P>, index: int32, depth: nat)
    requires index >= 0
    ensures Run(ctx, CheckRangeBody(ctx.cls), Frame(1, [IntV(index)], Args(IntV(index))), h, depth) ==
      Run(ctx, CheckRangeBody(ctx.cls), Frame(2, [], Args(IntV(index))), h, depth)
  {
    var b := CheckRangeBody(ctx.cls);
    RunStep(ctx, b, Frame(1, [IntV(index)], Args(IntV(index))), h, depth, Frame(2, [], Args(IntV(index))), h);
  }

  lemma CheckRangeCompareAt2<P>(ctx: Ctx<P>, h: Heap<P>, index: int32, depth: nat)
    requires index >= 0
    ensures Run(ctx, CheckRangeBody(ctx.cls), Frame(2, [], Args(IntV(index))), h, depth) ==
      Run(ctx, CheckRangeBody(ctx.cls), Frame(3, [IntV(index)], Args(IntV(index))), h, depth)
  {
    var b := CheckRangeBody(ctx.cls);
    RunStep(ctx, b, Frame(2, [], Args(IntV(index))), h, depth, Frame(3, [IntV(index)], Args(IntV(index))), h);
  }

  lemma CheckRangeCompareAt3<P>(ctx: Ctx<P>, h: Heap<P>, index: int32, depth: nat)
    requires index >= 0
    ensures Run(ctx, CheckRangeBody(ctx.cls), Frame(3, [IntV(index)], Args(IntV(index))), h, depth) ==
      Run(ctx, CheckRangeBody(ctx.cls), Frame(4, [IntV(index), ThisV], Args(IntV(index))), h, depth)
  {
    var b := CheckRangeBody(ctx.cls);
    RunStep(ctx, b, Frame(3, [IntV(index)], Args(IntV(index))), h, depth, Frame(4, [IntV(index), ThisV], Args(IntV(index))), h);
  }

  lemma CheckRangeCompareAt4<P>(ctx: Ctx<P>, h: Heap<P>, index: int32, depth: nat)
    requires index >= 0
    ensures Run(ctx, CheckRangeBody(ctx.cls), Frame(4, [IntV(index), ThisV], Args(IntV(index))), h, depth) ==
      Run(ctx, CheckRangeBody(ctx.cls), Frame(5, [IntV(index), IntV(h.size)], Args(IntV(index))), h, depth)
  {
    var b := CheckRangeBody(ctx.cls);
    RunStep(ctx, b, Frame(4, [IntV(index), ThisV], Args(IntV(index))), h, depth, Frame(5, [IntV(index), IntV(h.size)], Args(IntV(index))), h);
  }

  /** A non-negative index is compared with `size`. */
  lemma CheckRangeCompare<P>(ctx: Ctx<P>, h: Heap<P>, index: int32, depth: nat)
    requires index >= 0
    ensures Run(ctx, CheckRangeBody(ctx.cls), Entry(Args(IntV(index))), h, depth) ==
      Run(ctx, CheckRangeBody(ctx.cls), Frame(5, [IntV(index), IntV(h.size)], Args(IntV(index))), h, depth)
  {
    CheckRangeCompareAt0(ctx, h, index, depth);
    CheckRangeCompareAt1(ctx, h, index, depth);
    CheckRangeCompareAt2(ctx, h, index, depth);
    CheckRangeCompareAt3(ctx, h, index, depth);
    CheckRangeCompareAt4(ctx, h, index, depth);
  }

  lemma CheckRangeBelowSizeAt5<P>(ctx: Ctx<P>, h: Heap<P>, index: int32, depth: nat)
    requires index < h.size
    ensures Run(ctx, CheckRangeBody(ctx.cls), Frame(5, [IntV(index), IntV(h.size)], Args(IntV(index))), h, depth) ==
      Run(ctx, CheckRangeBody(ctx.cls), Frame(11, [], Args(IntV(index))), h, depth)
  {
    var b := CheckRangeBody(ctx.cls);
    LabelIndexAt(b.code, 2, 11);
    RunStep(ctx, b, Frame(5, [IntV(index), IntV(h.size)], Args(IntV(index))), h, depth, Frame(11, [], Args(IntV(index))), h);
  }

  lemma CheckRangeBelowSizeAt11<P>(ctx: Ctx<P>, h: Heap<P>, index: int32, depth: nat)
    requires index < h.size
    ensures Run(ctx, CheckRangeBody(ctx.cls), Frame(11, [], Args(IntV(index))), h, depth) ==
      Run(ctx, CheckRangeBody(ctx.cls), Frame(12, [], Args(IntV(index))), h, depth)
  {
    var b := CheckRangeBody(ctx.cls);
    RunStep(ctx, b, Frame(11, [], Args(IntV(index))), h, depth, Frame(12, [], Args(IntV(index))), h);
  }

  lemma CheckRangeBelowSizeAt12<P>(ctx: Ctx<P>, h: Heap<P>, index: int32, depth: nat)
    requires index < h.size
    ensures Run(ctx, CheckRangeBody(ctx.cls), Frame(12, [], Args(IntV(index))), h, depth) ==
      Returned(h, None)
  {
    var b := CheckRangeBody(ctx.cls);
    RunStop(ctx, b, Frame(12, [], Args(IntV(index))), h, depth, Returned(h, None));
  }

  /** `if_icmplt` jumps past the throw when `index < size`. */
  lemma CheckRangeBelowSize<P>(ctx: Ctx<P>, h: Heap<P>, index: int32, depth: nat)
    requires index < h.size
    ensures Run(ctx, CheckRangeBody(ctx.cls), Frame(5, [IntV(index), IntV(h.size)], Args(IntV(index))), h, depth) ==
      Returned(h, None)
  {
    CheckRangeBelowSizeAt5(ctx, h, index, depth);
    CheckRangeBelowSizeAt11(ctx, h, index, depth);
    CheckRangeBelowSizeAt12(ctx, h, index, depth);
  }

  lemma CheckRangeFromSizeAt5<P>(ctx: Ctx<P>, h: Heap<P>, index: int32, depth: nat)
    requires index >= h.size
    ensures Run(ctx, CheckRangeBody(ctx.cls), Frame(5, [IntV(index), IntV(h.size)], Args(IntV(index))), h, depth) ==
      Run(ctx, CheckRangeBody(ctx.cls), Frame(6, [], Args(IntV(index))), h, depth)
  {
    var b := CheckRangeBody(ctx.cls);
    RunStep(ctx, b, Frame(5, [IntV(index), IntV(h.size)], Args(IntV(index))), h, depth, Frame(6, [], Args(IntV(index))), h);
  }

  /** Control falls into the throw when `index >= size`. */
  lemma CheckRangeFromSize<P>(ctx: Ctx<P>, h: Heap<P>, index: int32, depth: nat)
    requires index >= h.size
    ensures Run(ctx, CheckRangeBody(ctx.cls), Frame(5, [IntV(index), IntV(h.size)], Args(IntV(index))), h, depth) ==
      Run(ctx, CheckRangeBody(ctx.cls), Frame(6, [], Args(IntV(index))), h, depth)
  {
    CheckRangeFromSizeAt5(ctx, h, index, depth);
  }

  lemma CheckRangeThrowAt6<P>(ctx: Ctx<P>, h: Heap<P>, index: int32, depth: nat)
    ensures Run(ctx, CheckRangeBody(ctx.cls), Frame(6, [], Args(IntV(index))), h, depth) ==
      Run(ctx, CheckRangeBody(ctx.cls), Frame(7, [], Args(IntV(index))), h, depth)
  {
    var b := CheckRangeBody(ctx.cls);
    RunStep(ctx, b, Frame(6, [], Args(IntV(index))), h, depth, Frame(7, [], Args(IntV(index))), h);
  }

  lemma CheckRangeThrowAt7<P>(ctx: Ctx<P>, h: Heap<P>, index: int32, depth: nat)
    ensures Run(ctx, CheckRangeBody(ctx.cls), Frame(7, [], Args(IntV(index))), h, depth) ==
      Run(ctx, CheckRangeBody(ctx.cls), Frame(8, [ExcV], Args(IntV(index))), h, depth)
  {
    var b := CheckRangeBody(ctx.cls);
    RunStep(ctx, b, Frame(7, [], Args(IntV(index))), h, depth, Frame(8, [ExcV], Args(IntV(index))), h);
  }

  lemma CheckRangeThrowAt8<P>(ctx: Ctx<P>, h: Heap<P>, index: int32, depth: nat)
    ensures Run(ctx, CheckRangeBody(ctx.cls), Frame(8, [ExcV], Args(IntV(index))), h, depth) ==
      Run(ctx, CheckRangeBody(ctx.cls), Frame(9, [ExcV, ExcV], Args(IntV(index))), h, depth)
  {
    var b := CheckRangeBody(ctx.cls);
    RunStep(ctx, b, Frame(8, [ExcV], Args(IntV(index))), h, depth, Frame(9, [ExcV, ExcV], Args(IntV(index))), h);
  }

  lemma CheckRangeThrowAt9<P>(ctx: Ctx<P>, h: Heap<P>, index: int32, depth: nat)
    ensures Run(ctx, CheckRangeBody(ctx.cls), Frame(9, [ExcV, ExcV], Args(IntV(index))), h, depth) ==
      Run(ctx, CheckRangeBody(ctx.cls), Frame(10, [ExcV], Args(IntV(index))), h, depth)
  {
    var b := CheckRangeBody(ctx.cls);
    RunStep(ctx, b, Frame(9, [ExcV, ExcV], Args(IntV(index))), h, depth, Frame(10, [ExcV], Args(IntV(index))), h);
  }

  lemma CheckRangeThrowAt10<P>(ctx: Ctx<P>, h: Heap<P>, index: int32, depth: nat)
    ensures Run(ctx, CheckRangeBody(ctx.cls), Frame(10, [ExcV], Args(IntV(index))), h, depth) ==
      Threw(h, IndexOutOfBounds)
  {
    var b := CheckRangeBody(ctx.cls);
    RunStop(ctx, b, Frame(10, [ExcV], Args(IntV(index))), h, depth, Threw(h, IndexOutOfBounds));
  }

  /** A new `IndexOutOfBoundsException` is constructed and thrown. */
  lemma CheckRangeThrow<P>(ctx: Ctx<P>, h: Heap<P>, index: int32, depth: nat)
    ensures Run(ctx, CheckRangeBody(ctx.cls), Frame(6, [], Args(IntV(index))), h, depth) ==
      Threw(h, IndexOutOfBounds)
  {
    CheckRangeThrowAt6(ctx, h, index, depth);
    CheckRangeThrowAt7(ctx, h, index, depth);
    CheckRangeThrowAt8(ctx, h, index, depth);
    CheckRangeThrowAt9(ctx, h, index, depth);
    CheckRangeThrowAt10(ctx, h, index, depth);
  }

  lemma GetCallAt0<P>(ctx: Ctx<P>, h: Heap<P>, index: int32, depth: nat)
    ensures Run(ctx, GetBody(ctx.cls, ctx.kind), Entry(Args(IntV(index))), h, depth) ==
      Run(ctx, GetBody(ctx.cls, ctx.kind), Frame(1, [ThisV], Args(IntV(index))), h, depth)
  {
    var b := GetBody(ctx.cls, ctx.kind);
    RunStep(ctx, b, Entry(Args(IntV(index))), h, depth, Frame(1, [ThisV], Args(IntV(index))), h);
  }

  lemma GetCallAt1<P>(ctx: Ctx<P>, h: Heap<P>, index: int32, depth: nat)
    ensures Run(ctx, GetBody(ctx.cls, ctx.kind), Frame(1, [ThisV], Args(IntV(index))), h, depth) ==
      Run(ctx, GetBody(ctx.cls, ctx.kind), Frame(2, [ThisV, IntV(index)], Args(IntV(index))), h, depth)
  {
    var b := GetBody(ctx.cls, ctx.kind);
    RunStep(ctx, b, Frame(1, [ThisV], Args(IntV(index))), h, depth, Frame(2, [ThisV, IntV(index)], Args(IntV(index))), h);
  }

  /** `get` pushes `this` and the index for `checkRange`. */
  lemma GetCall<P>(ctx: Ctx<P>, h: Heap<P>, index: int32, depth: nat)
    ensures Run(ctx, GetBody(ctx.cls, ctx.kind), Entry(Args(IntV(index))), h, depth) ==
      Run(ctx, GetBody(ctx.cls, ctx.kind), Frame(2, [ThisV, IntV(index)], Args(IntV(index))), h, depth)
  {
    GetCallAt0(ctx, h, index, depth);
    GetCallAt1(ctx, h, index, depth);
  }

  lemma GetLoadAt3<P>(ctx: Ctx<P>, h: Heap<P>, index: int32, depth: nat)
    requires h.data.ArrV? && h.data.id < |h.arrays|
    requires 0 <= index as int < |h.arrays[h.data.id]|
    ensures Run(ctx, GetBody(ctx.cls, ctx.kind), Frame(3, [], Args(IntV(index))), h, depth) ==
      Run(ctx, GetBody(ctx.cls, ctx.kind), Frame(4, [ThisV], Args(IntV(index))), h, depth)
  {
    var b := GetBody(ctx.cls, ctx.kind);
    RunStep(ctx, b, Frame(3, [], Args(IntV(index))), h, depth, Frame(4, [ThisV], Args(IntV(index))), h);
  }

  lemma GetLoadAt4<P>(ctx: Ctx<P>, h: Heap<P>, index: int32, depth: nat)
    requires h.data.ArrV? && h.data.id < |h.arrays|
    requires 0 <= index as int < |h.arrays[h.data.id]|
    ensures Run(ctx, GetBody(ctx.cls, ctx.kind), Frame(4, [ThisV], Args(IntV(index))), h, depth) ==
      Run(ctx, GetBody(ctx.cls, ctx.kind), Frame(5, [h.data], Args(IntV(index))), h, depth)
  {
    var b := GetBody(ctx.cls, ctx.kind);
    RunStep(ctx, b, Frame(4, [ThisV], Args(IntV(index))), h, depth, Frame(5, [h.data], Args(IntV(index))), h);
  }

  lemma GetLoadAt5<P>(ctx: Ctx<P>, h: Heap<P>, index: int32, depth: nat)
    requires h.data.ArrV? && h.data.id < |h.arrays|
    requires 0 <= index as int < |h.arrays[h.data.id]|
    ensures Run(ctx, GetBody(ctx.cls, ctx.kind), Frame(5, [h.data], Args(IntV(index))), h, depth) ==
      Run(ctx, GetBody(ctx.cls, ctx.kind), Frame(6, [h.data, IntV(index)], Args(IntV(index))), h, depth)
  {
    var b := GetBody(ctx.cls, ctx.kind);
    RunStep(ctx, b, Frame(5, [h.data], Args(IntV(index))), h, depth, Frame(6, [h.data, IntV(index)], Args(IntV(index))), h);
  }

  lemma GetLoadAt6<P>(ctx: Ctx<P>, h: Heap<P>, index: int32, depth: nat)
    requires h.data.ArrV? && h.data.id < |h.arrays|
    requires 0 <= index as int < |h.arrays[h.data.id]|
    ensures Run(ctx, GetBody(ctx.cls, ctx.kind), Frame(6, [h.data, IntV(index)], Args(IntV(index))), h, depth) ==
      Run(ctx, GetBody(ctx.cls, ctx.kind), Frame(7, [PrimV(h.arrays[h.data.id][index])], Args(IntV(index))), h, depth)
  {
    var b := GetBody(ctx.cls, ctx.kind);
    RunStep(ctx, b, Frame(6, [h.data, IntV(index)], Args(IntV(index))), h, depth, Frame(7, [PrimV(h.arrays[h.data.id][index])], Args(IntV(index))), h);
  }

  lemma GetLoadAt7<P>(ctx: Ctx<P>, h: Heap<P>, index: int32, depth: nat)
    requires h.data.ArrV? && h.data.id < |h.arrays|
    requires 0 <= index as int < |h.arrays[h.data.id]|
    ensures Run(ctx, GetBody(ctx.cls, ctx.kind), Frame(7, [PrimV(h.arrays[h.data.id][index])], Args(IntV(index))), h, depth) ==
      Run(ctx, GetBody(ctx.cls, ctx.kind), Frame(8, [BoxV(h.arrays[h.data.id][index])], Args(IntV(index))), h, depth)
  {
    var b := GetBody(ctx.cls, ctx.kind);
    RunStep(ctx, b, Frame(7, [PrimV(h.arrays[h.data.id][index])], Args(IntV(index))), h, depth, Frame(8, [BoxV(h.arrays[h.data.id][index])], Args(IntV(index))), h);
  }

  lemma GetLoadAt8<P>(ctx: Ctx<P>, h: Heap<P>, index: int32, depth: nat)
    requires h.data.ArrV? && h.data.id < |h.arrays|
    requires 0 <= index as int < |h.arrays[h.data.id]|
    ensures Run(ctx, GetBody(ctx.cls, ctx.kind), Frame(8, [BoxV(h.arrays[h.data.id][index])], Args(IntV(index))), h, depth) ==
      Returned(h, Some(BoxV(h.arrays[h.data.id][index])))
  {
    var b := GetBody(ctx.cls, ctx.kind);
    RunStop(ctx, b, Frame(8, [BoxV(h.arrays[h.data.id][index])], Args(IntV(index))), h, depth, Returned(h, Some(BoxV(h.arrays[h.data.id][index]))));
  }

  /** `get` loads the element at `index` from `data`, boxes it and returns it. */
  lemma GetLoad<P>(ctx: Ctx<P>, h: Heap<P>, index: int32, depth: nat)
    requires h.data.ArrV? && h.data.id < |h.arrays|
    requires 0 <= index as int < |h.arrays[h.data.id]|
    ensures Run(ctx, GetBody(ctx.cls, ctx.kind), Frame(3, [], Args(IntV(index))), h, depth) ==
      Returned(h, Some(BoxV(h.arrays[h.data.id][index])))
  {
    GetLoadAt3(ctx, h, index, depth);
    GetLoadAt4(ctx, h, index, depth);
    GetLoadAt5(ctx, h, index, depth);
    GetLoadAt6(ctx, h, index, depth);
    GetLoadAt7(ctx, h, index, depth);
    GetLoadAt8(ctx, h, index, depth);
  }

  lemma EnsureCapacityCompareAt0<P>(ctx: Ctx<P>, h: Heap<P>, minCapacity: int32, depth: nat)
    requires h.data.ArrV? && h.data.id < |h.arrays|
    requires |h.arrays[h.data.id]| <= MAX_INT
    ensures Run(ctx, EnsureCapacityBody(ctx.cls, ctx.kind), Entry(Args(IntV(minCapacity))), h, depth) ==
      Run(ctx, EnsureCapacityBody(ctx.cls, ctx.kind), Frame(1, [ThisV], Args(IntV(minCapacity))), h, depth)
  {
    var b := EnsureCapacityBody(ctx.cls, ctx.kind);
    RunStep(ctx, b, Entry(Args(IntV(minCapacity))), h, depth, Frame(1, [ThisV], Args(IntV(minCapacity))), h);
  }

  lemma EnsureCapacityCompareAt1<P>(ctx: Ctx<P>, h: Heap<P>, minCapacity: int32, depth: nat)
    requires h.data.ArrV? && h.data.id < |h.arrays|
    requires |h.arrays[h.data.id]| <= MAX_INT
    ensures Run(ctx, EnsureCapacityBody(ctx.cls, ctx.kind), Frame(1, [ThisV], Args(IntV(minCapacity))), h, depth) ==
      Run(ctx, EnsureCapacityBody(ctx.cls, ctx.kind), Frame(2, [h.data], Args(IntV(minCapacity))), h, depth)
  {
    var b := EnsureCapacityBody(ctx.cls, ctx.kind);
    RunStep(ctx, b, Frame(1, [ThisV], Args(IntV(minCapacity))), h, depth, Frame(2, [h.data], Args(IntV(minCapacity))), h);
  }

  lemma EnsureCapacityCompareAt2<P>(ctx: Ctx<P>, h: Heap<P>, minCapacity: int32, depth: nat)
    requires h.data.ArrV? && h.data.id < |h.arrays|
    requires |h.arrays[h.data.id]| <= MAX_INT
    ensures Run(ctx, EnsureCapacityBody(ctx.cls, ctx.kind), Frame(2, [h.data], Args(IntV(minCapacity))), h, depth) ==
      Run(ctx, EnsureCapacityBody(ctx.cls, ctx.kind), Frame(3, [IntV(|h.arrays[h.data.id]| as int32)], Args(IntV(minCapacity))), h, depth)
  {
    var b := EnsureCapacityBody(ctx.cls, ctx.kind);
    RunStep(ctx, b, Frame(2, [h.data], Args(IntV(minCapacity))), h, depth, Frame(3, [IntV(|h.arrays[h.data.id]| as int32)], Args(IntV(minCapacity))), h);
  }

  lemma EnsureCapacityCompareAt3<P>(ctx: Ctx<P>, h: Heap<P>, minCapacity: int32, depth: nat)
    requires h.data.ArrV? && h.data.id < |h.arrays|
    requires |h.arrays[h.data.id]| <= MAX_INT
    ensures Run(ctx, EnsureCapacityBody(ctx.cls, ctx.kind), Frame(3, [IntV(|h.arrays[h.data.id]| as int32)], Args(IntV(minCapacity))), h, depth) ==
      Run(ctx, EnsureCapacityBody(ctx.cls, ctx.kind), Frame(4, [IntV(|h.arrays[h.data.id]| as int32), IntV(minCapacity)], Args(IntV(minCapacity))), h, depth)
  {
    var b := EnsureCapacityBody(ctx.cls, ctx.kind);
    RunStep(ctx, b, Frame(3, [IntV(|h.arrays[h.data.id]| as int32)], Args(IntV(minCapacity))), h, depth, Frame(4, [IntV(|h.arrays[h.data.id]| as int32), IntV(minCapacity)], Args(IntV(minCapacity))), h);
  }

  /** `ensureCapacity` compares the array length with `minCapacity`. */
  lemma EnsureCapacityCompare<P>(ctx: Ctx<P>, h: Heap<P>, minCapacity: int32, depth: nat)
    requires h.data.ArrV? && h.data.id < |h.arrays|
    requires |h.arrays[h.data.id]| <= MAX_INT
    ensures Run(ctx, EnsureCapacityBody(ctx.cls, ctx.kind), Entry(Args(IntV(minCapacity))), h, depth) ==
      Run(ctx, EnsureCapacityBody(ctx.cls, ctx.kind), Frame(4, [IntV(|h.arrays[h.data.id]| as int32), IntV(minCapacity)], Args(IntV(minCapacity))), h, depth)
  {
    EnsureCapacityCompareAt0(ctx, h, minCapacity, depth);
    EnsureCapacityCompareAt1(ctx, h, minCapacity, depth);
    EnsureCapacityCompareAt2(ctx, h, minCapacity, depth);
    EnsureCapacityCompareAt3(ctx, h, minCapacity, depth);
  }

  lemma EnsureCapacityLongEnoughAt4<P>(ctx: Ctx<P>, h: Heap<P>, minCapacity: int32, depth: nat)
    requires h.data.ArrV? && h.data.id < |h.arrays|
    requires |h.arrays[h.data.id]| <= MAX_INT
    requires |h.arrays[h.data.id]| >= minCapacity as int
    ensures Run(ctx, EnsureCapacityBody(ctx.cls, ctx.kind), Frame(4, [IntV(|h.arrays[h.data.id]| as int32), IntV(minCapacity)], Args(IntV(minCapacity))), h, depth) ==
      Run(ctx, EnsureCapacityBody(ctx.cls, ctx.kind), Frame(19, [], Args(IntV(minCapacity))), h, depth)
  {
    var b := EnsureCapacityBody(ctx.cls, ctx.kind);
    LabelIndexAt(b.code, 1, 19);
    RunStep(ctx, b, Frame(4, [IntV(|h.arrays[h.data.id]| as int32), IntV(minCapacity)], Args(IntV(minCapacity))), h, depth, Frame(19, [], Args(IntV(minCapacity))), h);
  }

  lemma EnsureCapacityLongEnoughAt19<P>(ctx: Ctx<P>, h: Heap<P>, minCapacity: int32, depth: nat)
    requires h.data.ArrV? && h.data.id < |h.arrays|
    requires |h.arrays[h.data.id]| <= MAX_INT
    requires |h.arrays[h.data.id]| >= minCapacity as int
    ensures Run(ctx, EnsureCapacityBody(ctx.cls, ctx.kind), Frame(19, [], Args(IntV(minCapacity))), h, depth) ==
      Run(ctx, EnsureCapacityBody(ctx.cls, ctx.kind), Frame(20, [], Args(IntV(minCapacity))), h, depth)
  {
    var b := EnsureCapacityBody(ctx.cls, ctx.kind);
    RunStep(ctx, b, Frame(19, [], Args(IntV(minCapacity))), h, depth, Frame(20, [], Args(IntV(minCapacity))), h);
  }

  lemma EnsureCapacityLongEnoughAt20<P>(ctx: Ctx<P>, h: Heap<P>, minCapacity: int32, depth: nat)
    requires h.data.ArrV? && h.data.id < |h.arrays|
    requires |h.arrays[h.data.id]| <= MAX_INT
    requires |h.arrays[h.data.id]| >= minCapacity as int
    ensures Run(ctx, EnsureCapacityBody(ctx.cls, ctx.kind), Frame(20, [], Args(IntV(minCapacity))), h, depth) ==
      Returned(h, None)
  {
    var b := EnsureCapacityBody(ctx.cls, ctx.kind);
    RunStop(ctx, b, Frame(20, [], Args(IntV(minCapacity))), h, depth, Returned(h, None));
  }

  /** `if_icmpge` jumps to the return when the array is long enough. */
  lemma EnsureCapacityLongEnough<P>(ctx: Ctx<P>, h: Heap<P>, minCapacity: int32, depth: nat)
    requires h.data.ArrV? && h.data.id < |h.arrays|
    requires |h.arrays[h.data.id]| <= MAX_INT
    requires |h.arrays[h.data.id]| >= minCapacity as int
    ensures Run(ctx, EnsureCapacityBody(ctx.cls, ctx.kind), Frame(4, [IntV(|h.arrays[h.data.id]| as int32), IntV(minCapacity)], Args(IntV(minCapacity))), h, depth) ==
      Returned(h, None)
  {
    EnsureCapacityLongEnoughAt4(ctx, h, minCapacity, depth);
    EnsureCapacityLongEnoughAt19(ctx, h, minCapacity, depth);
    EnsureCapacityLongEnoughAt20(ctx, h, minCapacity, depth);
  }

  lemma EnsureCapacityDoubleAt4<P>(ctx: Ctx<P>, h: Heap<P>, minCapacity: int32, depth: nat)
    requires h.data.ArrV? && h.data.id < |h.arrays|
    requires |h.arrays[h.data.id]| <= MAX_INT
    requires |h.arrays[h.data.id]| < minCapacity as int
    ensures Run(ctx, EnsureCapacityBody(ctx.cls, ctx.kind), Frame(4, [IntV(|h.arrays[h.data.id]| as int32), IntV(minCapacity)], Args(IntV(minCapacity))), h, depth) ==
      Run(ctx, EnsureCapacityBody(ctx.cls, ctx.kind), Frame(5, [], Args(IntV(minCapacity))), h, depth)
  {
    var b := EnsureCapacityBody(ctx.cls, ctx.kind);
    RunStep(ctx, b, Frame(4, [IntV(|h.arrays[h.data.id]| as int32), IntV(minCapacity)], Args(IntV(minCapacity))), h, depth, Frame(5, [], Args(IntV(minCapacity))), h);
  }

  lemma EnsureCapacityDoubleAt5<P>(ctx: Ctx<P>, h: Heap<P>, minCapacity: int32, depth: nat)
    requires h.data.ArrV? && h.data.id < |h.arrays|
    requires |h.arrays[h.data.id]| <= MAX_INT
    requires |h.arrays[h.data.id]| < minCapacity as int
    ensures Run(ctx, EnsureCapacityBody(ctx.cls, ctx.kind), Frame(5, [], Args(IntV(minCapacity))), h, depth) ==
      Run(ctx, EnsureCapacityBody(ctx.cls, ctx.kind), Frame(6, [ThisV], Args(IntV(minCapacity))), h, depth)
  {
    var b := EnsureCapacityBody(ctx.cls, ctx.kind);
    RunStep(ctx, b, Frame(5, [], Args(IntV(minCapacity))), h, depth, Frame(6, [ThisV], Args(IntV(minCapacity))), h);
  }

  lemma EnsureCapacityDoubleAt6<P>(ctx: Ctx<P>, h: Heap<P>, minCapacity: int32, depth: nat)
    requires h.data.ArrV? && h.data.id < |h.arrays|
    requires |h.arrays[h.data.id]| <= MAX_INT
    requires |h.arrays[h.data.id]| < minCapacity as int
    ensures Run(ctx, EnsureCapacityBody(ctx.cls, ctx.kind), Frame(6, [ThisV], Args(IntV(minCapacity))), h, depth) ==
      Run(ctx, EnsureCapacityBody(ctx.cls, ctx.kind), Frame(7, [h.data], Args(IntV(minCapacity))), h, depth)
  {
    var b := EnsureCapacityBody(ctx.cls, ctx.kind);
    RunStep(ctx, b, Frame(6, [ThisV], Args(IntV(minCapacity))), h, depth, Frame(7, [h.data], Args(IntV(minCapacity))), h);
  }

  lemma EnsureCapacityDoubleAt7<P>(ctx: Ctx<P>, h: Heap<P>, minCapacity: int32, depth: nat)
    requires h.data.ArrV? && h.data.id < |h.arrays|
    requires |h.arrays[h.data.id]| <= MAX_INT
    requires |h.arrays[h.data.id]| < minCapacity as int
    ensures Run(ctx, EnsureCapacityBody(ctx.cls, ctx.kind), Frame(7, [h.data], Args(IntV(minCapacity))), h, depth) ==
      Run(ctx, EnsureCapacityBody(ctx.cls, ctx.kind), Frame(8, [IntV(|h.arrays[h.data.id]| as int32)], Args(IntV(minCapacity))), h, depth)
  {
    var b := EnsureCapacityBody(ctx.cls, ctx.kind);
    RunStep(ctx, b, Frame(7, [h.data], Args(IntV(minCapacity))), h, depth, Frame(8, [IntV(|h.arrays[h.data.id]| as int32)], Args(IntV(minCapacity))), h);
  }

  lemma EnsureCapacityDoubleAt8<P>(ctx: Ctx<P>, h: Heap<P>, minCapacity: int32, depth: nat)
    requires h.data.ArrV? && h.data.id < |h.arrays|
    requires |h.arrays[h.data.id]| <= MAX_INT
    requires |h.arrays[h.data.id]| < minCapacity as int
    ensures Run(ctx, EnsureCapacityBody(ctx.cls, ctx.kind), Frame(8, [IntV(|h.arrays[h.data.id]| as int32)], Args(IntV(minCapacity))), h, depth) ==
      Run(ctx, EnsureCapacityBody(ctx.cls, ctx.kind), Frame(9, [IntV(|h.arrays[h.data.id]| as int32), IntV(2)], Args(IntV(minCapacity))), h, depth)
  {
    var b := EnsureCapacityBody(ctx.cls, ctx.kind);
    RunStep(ctx, b, Frame(8, [IntV(|h.arrays[h.data.id]| as int32)], Args(IntV(minCapacity))), h, depth, Frame(9, [IntV(|h.arrays[h.data.id]| as int32), IntV(2)], Args(IntV(minCapacity))), h);
  }

  lemma EnsureCapacityDoubleAt9<P>(ctx: Ctx<P>, h: Heap<P>, minCapacity: int32, depth: nat)
    requires h.data.ArrV? && h.data.id < |h.arrays|
    requires |h.arrays[h.data.id]| <= MAX_INT
    requires |h.arrays[h.data.id]| < minCapacity as int
    ensures Run(ctx, EnsureCapacityBody(ctx.cls, ctx.kind), Frame(9, [IntV(|h.arrays[h.data.id]| as int32), IntV(2)], Args(IntV(minCapacity))), h, depth) ==
      Run(ctx, EnsureCapacityBody(ctx.cls, ctx.kind), Frame(10, [IntV(Wrap(|h.arrays[h.data.id]| * 2))], Args(IntV(minCapacity))), h, depth)
  {
    var b := EnsureCapacityBody(ctx.cls, ctx.kind);
    RunStep(ctx, b, Frame(9, [IntV(|h.arrays[h.data.id]| as int32), IntV(2)], Args(IntV(minCapacity))), h, depth, Frame(10, [IntV(Wrap(|h.arrays[h.data.id]| * 2))], Args(IntV(minCapacity))), h);
  }

  /** Otherwise the length is doubled, with wrap-around. */
  lemma EnsureCapacityDouble<P>(ctx: Ctx<P>, h: Heap<P>, minCapacity: int32, depth: nat)
    requires h.data.ArrV? && h.data.id < |h.arrays|
    requires |h.arrays[h.data.id]| <= MAX_INT
    requires |h.arrays[h.data.id]| < minCapacity as int
    ensures Run(ctx, EnsureCapacityBody(ctx.cls, ctx.kind), Frame(4, [IntV(|h.arrays[h.data.id]| as int32), IntV(minCapacity)], Args(IntV(minCapacity))), h, depth) ==
      Run(ctx, EnsureCapacityBody(ctx.cls, ctx.kind), Frame(10, [IntV(Wrap(|h.arrays[h.data.id]| * 2))], Args(IntV(minCapacity))), h, depth)
  {
    EnsureCapacityDoubleAt4(ctx, h, minCapacity, depth);
    EnsureCapacityDoubleAt5(ctx, h, minCapacity, depth);
    EnsureCapacityDoubleAt6(ctx, h, minCapacity, depth);
    EnsureCapacityDoubleAt7(ctx, h, minCapacity, depth);
    EnsureCapacityDoubleAt8(ctx, h, minCapacity, depth);
    EnsureCapacityDoubleAt9(ctx, h, minCapacity, depth);
  }

  lemma EnsureCapacityMaxAt10<P>(ctx: Ctx<P>, h: Heap<P>, minCapacity: int32, depth: nat)
    requires h.data.ArrV? && h.data.id < |h.arrays|
    requires |h.arrays[h.data.id]| <= MAX_INT
    ensures Run(ctx, EnsureCapacityBody(ctx.cls, ctx.kind), Frame(10, [IntV(Wrap(|h.arrays[h.data.id]| * 2))], Args(IntV(minCapacity))), h, depth) ==
      Run(ctx, EnsureCapacityBody(ctx.cls, ctx.kind), Frame(11, [IntV(Wrap(|h.arrays[h.data.id]| * 2)), IntV(minCapacity)], Args(IntV(minCapacity))), h, depth)
  {
    var b := EnsureCapacityBody(ctx.cls, ctx.kind);
    RunStep(ctx, b, Frame(10, [IntV(Wrap(|h.arrays[h.data.id]| * 2))], Args(IntV(minCapacity))), h, depth, Frame(11, [IntV(Wrap(|h.arrays[h.data.id]| * 2)), IntV(minCapacity)], Args(IntV(minCapacity))), h);
  }

  lemma EnsureCapacityMaxAt11<P>(ctx: Ctx<P>, h: Heap<P>, minCapacity: int32, depth: nat)
    requires h.data.ArrV? && h.data.id < |h.arrays|
    requires |h.arrays[h.data.id]| <= MAX_INT
    ensures Run(ctx, EnsureCapacityBody(ctx.cls, ctx.kind), Frame(11, [IntV(Wrap(|h.arrays[h.data.id]| * 2)), IntV(minCapacity)], Args(IntV(minCapacity))), h, depth) ==
      Run(ctx, EnsureCapacityBody(ctx.cls, ctx.kind), Frame(12, [IntV(Grown(|h.arrays[h.data.id]| as int32, minCapacity))], Args(IntV(minCapacity))), h, depth)
  {
    var b := EnsureCapacityBody(ctx.cls, ctx.kind);
    RunStep(ctx, b, Frame(11, [IntV(Wrap(|h.arrays[h.data.id]| * 2)), IntV(minCapacity)], Args(IntV(minCapacity))), h, depth, Frame(12, [IntV(Grown(|h.arrays[h.data.id]| as int32, minCapacity))], Args(IntV(minCapacity))), h);
  }

  lemma EnsureCapacityMaxAt12<P>(ctx: Ctx<P>, h: Heap<P>, minCapacity: int32, depth: nat)
    requires h.data.ArrV? && h.data.id < |h.arrays|
    requires |h.arrays[h.data.id]| <= MAX_INT
    ensures Run(ctx, EnsureCapacityBody(ctx.cls, ctx.kind), Frame(12, [IntV(Grown(|h.arrays[h.data.id]| as int32, minCapacity))], Args(IntV(minCapacity))), h, depth) ==
      Run(ctx, EnsureCapacityBody(ctx.cls, ctx.kind), Frame(13, [], Args(IntV(minCapacity))[2 := IntV(Grown(|h.arrays[h.data.id]| as int32, minCapacity))]), h, depth)
  {
    var b := EnsureCapacityBody(ctx.cls, ctx.kind);
    RunStep(ctx, b, Frame(12, [IntV(Grown(|h.arrays[h.data.id]| as int32, minCapacity))], Args(IntV(minCapacity))), h, depth, Frame(13, [], Args(IntV(minCapacity))[2 := IntV(Grown(|h.arrays[h.data.id]| as int32, minCapacity))]), h);
  }

  lemma EnsureCapacityMaxAt13<P>(ctx: Ctx<P>, h: Heap<P>, minCapacity: int32, depth: nat)
    requires h.data.ArrV? && h.data.id < |h.arrays|
    requires |h.arrays[h.data.id]| <= MAX_INT
    ensures Run(ctx, EnsureCapacityBody(ctx.cls, ctx.kind), Frame(13, [], Args(IntV(minCapacity))[2 := IntV(Grown(|h.arrays[h.data.id]| as int32, minCapacity))]), h, depth) ==
      Run(ctx, EnsureCapacityBody(ctx.cls, ctx.kind), Frame(14, [ThisV], Args(IntV(minCapacity))[2 := IntV(Grown(|h.arrays[h.data.id]| as int32, minCapacity))]), h, depth)
  {
    var b := EnsureCapacityBody(ctx.cls, ctx.kind);
    RunStep(ctx, b, Frame(13, [], Args(IntV(minCapacity))[2 := IntV(Grown(|h.arrays[h.data.id]| as int32, minCapacity))]), h, depth, Frame(14, [ThisV], Args(IntV(minCapacity))[2 := IntV(Grown(|h.arrays[h.data.id]| as int32, minCapacity))]), h);
  }

  /** `Math.max` with `minCapacity` gives the new capacity, kept in local 2. */
  lemma EnsureCapacityMax<P>(ctx: Ctx<P>, h: Heap<P>, minCapacity: int32, depth: nat)
    requires h.data.ArrV? && h.data.id < |h.arrays|
    requires |h.arrays[h.data.id]| <= MAX_INT
    ensures Run(ctx, EnsureCapacityBody(ctx.cls, ctx.kind), Frame(10, [IntV(Wrap(|h.arrays[h.data.id]| * 2))], Args(IntV(minCapacity))), h, depth) ==
      Run(ctx, EnsureCapacityBody(ctx.cls, ctx.kind), Frame(14, [ThisV], Args(IntV(minCapacity))[2 := IntV(Grown(|h.arrays[h.data.id]| as int32, minCapacity))]), h, depth)
  {
    EnsureCapacityMaxAt10(ctx, h, minCapacity, depth);
    EnsureCapacityMaxAt11(ctx, h, minCapacity, depth);
    EnsureCapacityMaxAt12(ctx, h, minCapacity, depth);
    EnsureCapacityMaxAt13(ctx, h, minCapacity, depth);
  }

  lemma EnsureCapacityCopyAt14<P>(ctx: Ctx<P>, h: Heap<P>, minCapacity: int32, depth: nat)
    requires h.data.ArrV? && h.data.id < |h.arrays|
    requires |h.arrays[h.data.id]| <= MAX_INT
    requires Grown(|h.arrays[h.data.id]| as int32, minCapacity) >= 0
    ensures Run(ctx, EnsureCapacityBody(ctx.cls, ctx.kind), Frame(14, [ThisV], Args(IntV(minCapacity))[2 := IntV(Grown(|h.arrays[h.data.id]| as int32, minCapacity))]), h, depth) ==
      Run(ctx, EnsureCapacityBody(ctx.cls, ctx.kind), Frame(15, [ThisV, ThisV], Args(IntV(minCapacity))[2 := IntV(Grown(|h.arrays[h.data.id]| as int32, minCapacity))]), h, depth)
  {
    var b := EnsureCapacityBody(ctx.cls, ctx.kind);
    RunStep(ctx, b, Frame(14, [ThisV], Args(IntV(minCapacity))[2 := IntV(Grown(|h.arrays[h.data.id]| as int32, minCapacity))]), h, depth, Frame(15, [ThisV, ThisV], Args(IntV(minCapacity))[2 := IntV(Grown(|h.arrays[h.data.id]| as int32, minCapacity))]), h);
  }

  lemma EnsureCapacityCopyAt15<P>(ctx: Ctx<P>, h: Heap<P>, minCapacity: int32, depth: nat)
    requires h.data.ArrV? && h.data.id < |h.arrays|
    requires |h.arrays[h.data.id]| <= MAX_INT
    requires Grown(|h.arrays[h.data.id]| as int32, minCapacity) >= 0
    ensures Run(ctx, EnsureCapacityBody(ctx.cls, ctx.kind), Frame(15, [ThisV, ThisV], Args(IntV(minCapacity))[2 := IntV(Grown(|h.arrays[h.data.id]| as int32, minCapacity))]), h, depth) ==
      Run(ctx, EnsureCapacityBody(ctx.cls, ctx.kind), Frame(16, [ThisV, h.data], Args(IntV(minCapacity))[2 := IntV(Grown(|h.arrays[h.data.id]| as int32, minCapacity))]), h, depth)
  {
    var b := EnsureCapacityBody(ctx.cls, ctx.kind);
    RunStep(ctx, b, Frame(15, [ThisV, ThisV], Args(IntV(minCapacity))[2 := IntV(Grown(|h.arrays[h.data.id]| as int32, minCapacity))]), h, depth, Frame(16, [ThisV, h.data], Args(IntV(minCapacity))[2 := IntV(Grown(|h.arrays[h.data.id]| as int32, minCapacity))]), h);
  }

  lemma EnsureCapacityCopyAt16<P>(ctx: Ctx<P>, h: Heap<P>, minCapacity: int32, depth: nat)
    requires h.data.ArrV? && h.data.id < |h.arrays|
    requires |h.arrays[h.data.id]| <= MAX_INT
    requires Grown(|h.arrays[h.data.id]| as int32, minCapacity) >= 0
    ensures Run(ctx, EnsureCapacityBody(ctx.cls, ctx.kind), Frame(16, [ThisV, h.data], Args(IntV(minCapacity))[2 := IntV(Grown(|h.arrays[h.data.id]| as int32, minCapacity))]), h, depth) ==
      Run(ctx, EnsureCapacityBody(ctx.cls, ctx.kind), Frame(17, [ThisV, h.data, IntV(Grown(|h.arrays[h.data.id]| as int32, minCapacity))], Args(IntV(minCapacity))[2 := IntV(Grown(|h.arrays[h.data.id]| as int32, minCapacity))]), h, depth)
  {
    var b := EnsureCapacityBody(ctx.cls, ctx.kind);
    RunStep(ctx, b, Frame(16, [ThisV, h.data], Args(IntV(minCapacity))[2 := IntV(Grown(|h.arrays[h.data.id]| as int32, minCapacity))]), h, depth, Frame(17, [ThisV, h.data, IntV(Grown(|h.arrays[h.data.id]| as int32, minCapacity))], Args(IntV(minCapacity))[2 := IntV(Grown(|h.arrays[h.data.id]| as int32, minCapacity))]), h);
  }

  lemma EnsureCapacityCopyAt17<P>(ctx: Ctx<P>, h: Heap<P>, minCapacity: int32, depth: nat)
    requires h.data.ArrV? && h.data.id < |h.arrays|
    requires |h.arrays[h.data.id]| <= MAX_INT
    requires Grown(|h.arrays[h.data.id]| as int32, minCapacity) >= 0
    ensures Run(ctx, EnsureCapacityBody(ctx.cls, ctx.kind), Frame(17, [ThisV, h.data, IntV(Grown(|h.arrays[h.data.id]| as int32, minCapacity))], Args(IntV(minCapacity))[2 := IntV(Grown(|h.arrays[h.data.id]| as int32, minCapacity))]), h, depth) ==
      Run(ctx, EnsureCapacityBody(ctx.cls, ctx.kind), Frame(18, [ThisV, ArrV(|h.arrays|)], Args(IntV(minCapacity))[2 := IntV(Grown(|h.arrays[h.data.id]| as int32, minCapacity))]), h.(arrays := h.arrays + [Copied(h.arrays[h.data.id], Grown(|h.arrays[h.data.id]| as int32, minCapacity) as nat, ctx.zero)]), depth)
  {
    var b := EnsureCapacityBody(ctx.cls, ctx.kind);
    RunStep(ctx, b, Frame(17, [ThisV, h.data, IntV(Grown(|h.arrays[h.data.id]| as int32, minCapacity))], Args(IntV(minCapacity))[2 := IntV(Grown(|h.arrays[h.data.id]| as int32, minCapacity))]), h, depth, Frame(18, [ThisV, ArrV(|h.arrays|)], Args(IntV(minCapacity))[2 := IntV(Grown(|h.arrays[h.data.id]| as int32, minCapacity))]), h.(arrays := h.arrays + [Copied(h.arrays[h.data.id], Grown(|h.arrays[h.data.id]| as int32, minCapacity) as nat, ctx.zero)]));
  }

  lemma EnsureCapacityCopyAt18<P>(ctx: Ctx<P>, h: Heap<P>, minCapacity: int32, depth: nat)
    requires h.data.ArrV? && h.data.id < |h.arrays|
    requires |h.arrays[h.data.id]| <= MAX_INT
    requires Grown(|h.arrays[h.data.id]| as int32, minCapacity) >= 0
    ensures Run(ctx, EnsureCapacityBody(ctx.cls, ctx.kind), Frame(18, [ThisV, ArrV(|h.arrays|)], Args(IntV(minCapacity))[2 := IntV(Grown(|h.arrays[h.data.id]| as int32, minCapacity))]), h.(arrays := h.arrays + [Copied(h.arrays[h.data.id], Grown(|h.arrays[h.data.id]| as int32, minCapacity) as nat, ctx.zero)]), depth) ==
      Run(ctx, EnsureCapacityBody(ctx.cls, ctx.kind), Frame(19, [], Args(IntV(minCapacity))[2 := IntV(Grown(|h.arrays[h.data.id]| as int32, minCapacity))]), h.(arrays := h.arrays + [Copied(h.arrays[h.data.id], Grown(|h.arrays[h.data.id]| as int32, minCapacity) as nat, ctx.zero)]).(data := ArrV(|h.arrays|)), depth)
  {
    var b := EnsureCapacityBody(ctx.cls, ctx.kind);
    RunStep(ctx, b, Frame(18, [ThisV, ArrV(|h.arrays|)], Args(IntV(minCapacity))[2 := IntV(Grown(|h.arrays[h.data.id]| as int32, minCapacity))]), h.(arrays := h.arrays + [Copied(h.arrays[h.data.id], Grown(|h.arrays[h.data.id]| as int32, minCapacity) as nat, ctx.zero)]), depth, Frame(19, [], Args(IntV(minCapacity))[2 := IntV(Grown(|h.arrays[h.data.id]| as int32, minCapacity))]), h.(arrays := h.arrays + [Copied(h.arrays[h.data.id], Grown(|h.arrays[h.data.id]| as int32, minCapacity) as nat, ctx.zero)]).(data := ArrV(|h.arrays|)));
  }

  lemma EnsureCapacityCopyAt19<P>(ctx: Ctx<P>, h: Heap<P>, minCapacity: int32, depth: nat)
    requires h.data.ArrV? && h.data.id < |h.arrays|
    requires |h.arrays[h.data.id]| <= MAX_INT
    requires Grown(|h.arrays[h.data.id]| as int32, minCapacity) >= 0
    ensures Run(ctx, EnsureCapacityBody(ctx.cls, ctx.kind), Frame(19, [], Args(IntV(minCapacity))[2 := IntV(Grown(|h.arrays[h.data.id]| as int32, minCapacity))]), h.(arrays := h.arrays + [Copied(h.arrays[h.data.id], Grown(|h.arrays[h.data.id]| as int32, minCapacity) as nat, ctx.zero)]).(data := ArrV(|h.arrays|)), depth) ==
      Run(ctx, EnsureCapacityBody(ctx.cls, ctx.kind), Frame(20, [], Args(IntV(minCapacity))[2 := IntV(Grown(|h.arrays[h.data.id]| as int32, minCapacity))]), h.(arrays := h.arrays + [Copied(h.arrays[h.data.id], Grown(|h.arrays[h.data.id]| as int32, minCapacity) as nat, ctx.zero)]).(data := ArrV(|h.arrays|)), depth)
  {
    var b := EnsureCapacityBody(ctx.cls, ctx.kind);
    RunStep(ctx, b, Frame(19, [], Args(IntV(minCapacity))[2 := IntV(Grown(|h.arrays[h.data.id]| as int32, minCapacity))]), h.(arrays := h.arrays + [Copied(h.arrays[h.data.id], Grown(|h.arrays[h.data.id]| as int32, minCapacity) as nat, ctx.zero)]).(data := ArrV(|h.arrays|)), depth, Frame(20, [], Args(IntV(minCapacity))[2 := IntV(Grown(|h.arrays[h.data.id]| as int32, minCapacity))]), h.(arrays := h.arrays + [Copied(h.arrays[h.data.id], Grown(|h.arrays[h.data.id]| as int32, minCapacity) as nat, ctx.zero)]).(data := ArrV(|h.arrays|)));
  }

  lemma EnsureCapacityCopyAt20<P>(ctx: Ctx<P>, h: Heap<P>, minCapacity: int32, depth: nat)
    requires h.data.ArrV? && h.data.id < |h.arrays|
    requires |h.arrays[h.data.id]| <= MAX_INT
    requires Grown(|h.arrays[h.data.id]| as int32, minCapacity) >= 0
    ensures Run(ctx, EnsureCapacityBody(ctx.cls, ctx.kind), Frame(20, [], Args(IntV(minCapacity))[2 := IntV(Grown(|h.arrays[h.data.id]| as int32, minCapacity))]), h.(arrays := h.arrays + [Copied(h.arrays[h.data.id], Grown(|h.arrays[h.data.id]| as int32, minCapacity) as nat, ctx.zero)]).(data := ArrV(|h.arrays|)), depth) ==
      Returned(h.(arrays := h.arrays + [Copied(h.arrays[h.data.id], Grown(|h.arrays[h.data.id]| as int32, minCapacity) as nat, ctx.zero)]).(data := ArrV(|h.arrays|)), None)
  {
    var b := EnsureCapacityBody(ctx.cls, ctx.kind);
    RunStop(ctx, b, Frame(20, [], Args(IntV(minCapacity))[2 := IntV(Grown(|h.arrays[h.data.id]| as int32, minCapacity))]), h.(arrays := h.arrays + [Copied(h.arrays[h.data.id], Grown(|h.arrays[h.data.id]| as int32, minCapacity) as nat, ctx.zero)]).(data := ArrV(|h.arrays|)), depth, Returned(h.(arrays := h.arrays + [Copied(h.arrays[h.data.id], Grown(|h.arrays[h.data.id]| as int32, minCapacity) as nat, ctx.zero)]).(data := ArrV(|h.arrays|)), None));
  }

  /** `Arrays.copyOf` to the new capacity, stored in `data`. */
  lemma EnsureCapacityCopy<P>(ctx: Ctx<P>, h: Heap<P>, minCapacity: int32, depth: nat)
    requires h.data.ArrV? && h.data.id < |h.arrays|
    requires |h.arrays[h.data.id]| <= MAX_INT
    requires Grown(|h.arrays[h.data.id]| as int32, minCapacity) >= 0
    ensures Run(ctx, EnsureCapacityBody(ctx.cls, ctx.kind), Frame(14, [ThisV], Args(IntV(minCapacity))[2 := IntV(Grown(|h.arrays[h.data.id]| as int32, minCapacity))]), h, depth) ==
      Returned(h.(arrays := h.arrays + [Copied(h.arrays[h.data.id], Grown(|h.arrays[h.data.id]| as int32, minCapacity) as nat, ctx.zero)]).(data := ArrV(|h.arrays|)), None)
  {
    EnsureCapacityCopyAt14(ctx, h, minCapacity, depth);
    EnsureCapacityCopyAt15(ctx, h, minCapacity, depth);
    EnsureCapacityCopyAt16(ctx, h, minCapacity, depth);
    EnsureCapacityCopyAt17(ctx, h, minCapacity, depth);
    EnsureCapacityCopyAt18(ctx, h, minCapacity, depth);
    EnsureCapacityCopyAt19(ctx, h, minCapacity, depth);
    EnsureCapacityCopyAt20(ctx, h, minCapacity, depth);
  }

  lemma AddGrowAt0<P>(ctx: Ctx<P>, h: Heap<P>, e: Ref<P>, depth: nat)
    ensures Run(ctx, AddBody(ctx.cls, ctx.kind), Entry(Args(RefValue(e))), h, depth) ==
      Run(ctx, AddBody(ctx.cls, ctx.kind), Frame(1, [ThisV], Args(RefValue(e))), h, depth)
  {
    var b := AddBody(ctx.cls, ctx.kind);
    RunStep(ctx, b, Entry(Args(RefValue(e))), h, depth, Frame(1, [ThisV], Args(RefValue(e))), h);
  }

  lemma AddGrowAt1<P>(ctx: Ctx<P>, h: Heap<P>, e: Ref<P>, depth: nat)
    ensures Run(ctx, AddBody(ctx.cls, ctx.kind), Frame(1, [ThisV], Args(RefValue(e))), h, depth) ==
      Run(ctx, AddBody(ctx.cls, ctx.kind), Frame(2, [ThisV, ThisV], Args(RefValue(e))), h, depth)
  {
    var b := AddBody(ctx.cls, ctx.kind);
    RunStep(ctx, b, Frame(1, [ThisV], Args(RefValue(e))), h, depth, Frame(2, [ThisV, ThisV], Args(RefValue(e))), h);
  }

  lemma AddGrowAt2<P>(ctx: Ctx<P>, h: Heap<P>, e: Ref<P>, depth: nat)
    ensures Run(ctx, AddBody(ctx.cls, ctx.kind), Frame(2, [ThisV, ThisV], Args(RefValue(e))), h, depth) ==
      Run(ctx, AddBody(ctx.cls, ctx.kind), Frame(3, [ThisV, IntV(h.size)], Args(RefValue(e))), h, depth)
  {
    var b := AddBody(ctx.cls, ctx.kind);
    RunStep(ctx, b, Frame(2, [ThisV, ThisV], Args(RefValue(e))), h, depth, Frame(3, [ThisV, IntV(h.size)], Args(RefValue(e))), h);
  }

  lemma AddGrowAt3<P>(ctx: Ctx<P>, h: Heap<P>, e: Ref<P>, depth: nat)
    ensures Run(ctx, AddBody(ctx.cls, ctx.kind), Frame(3, [ThisV, IntV(h.size)], Args(RefValue(e))), h, depth) ==
      Run(ctx, AddBody(ctx.cls, ctx.kind), Frame(4, [ThisV, IntV(h.size), IntV(1)], Args(RefValue(e))), h, depth)
  {
    var b := AddBody(ctx.cls, ctx.kind);
    RunStep(ctx, b, Frame(3, [ThisV, IntV(h.size)], Args(RefValue(e))), h, depth, Frame(4, [ThisV, IntV(h.size), IntV(1)], Args(RefValue(e))), h);
  }

  lemma AddGrowAt4<P>(ctx: Ctx<P>, h: Heap<P>, e: Ref<P>, depth: nat)
    ensures Run(ctx, AddBody(ctx.cls, ctx.kind), Frame(4, [ThisV, IntV(h.size), IntV(1)], Args(RefValue(e))), h, depth) ==
      Run(ctx, AddBody(ctx.cls, ctx.kind), Frame(5, [ThisV, IntV(Wrap(h.size as int + 1))], Args(RefValue(e))), h, depth)
  {
    var b := AddBody(ctx.cls, ctx.kind);
    RunStep(ctx, b, Frame(4, [ThisV, IntV(h.size), IntV(1)], Args(RefValue(e))), h, depth, Frame(5, [ThisV, IntV(Wrap(h.size as int + 1))], Args(RefValue(e))), h);
  }

  /** `add` pushes `this` and `size + 1` for `ensureCapacity`. */
  lemma AddGrow<P>(ctx: Ctx<P>, h: Heap<P>, e: Ref<P>, depth: nat)
    ensures Run(ctx, AddBody(ctx.cls, ctx.kind), Entry(Args(RefValue(e))), h, depth) ==
      Run(ctx, AddBody(ctx.cls, ctx.kind), Frame(5, [ThisV, IntV(Wrap(h.size as int + 1))], Args(RefValue(e))), h, depth)
  {
    AddGrowAt0(ctx, h, e, depth);
    AddGrowAt1(ctx, h, e, depth);
    AddGrowAt2(ctx, h, e, depth);
    AddGrowAt3(ctx, h, e, depth);
    AddGrowAt4(ctx, h, e, depth);
  }

  lemma AddCorrectedGrowAt0<P>(ctx: Ctx<P>, h: Heap<P>, e: Ref<P>, depth: nat)
    ensures Run(ctx, AddBodyCorrected(ctx.cls, ctx.kind), Entry(Args(RefValue(e))), h, depth) ==
      Run(ctx, AddBodyCorrected(ctx.cls, ctx.kind), Frame(1, [ThisV], Args(RefValue(e))), h, depth)
  {
    var b := AddBodyCorrected(ctx.cls, ctx.kind);
    RunStep(ctx, b, Entry(Args(RefValue(e))), h, depth, Frame(1, [ThisV], Args(RefValue(e))), h);
  }

  lemma AddCorrectedGrowAt1<P>(ctx: Ctx<P>, h: Heap<P>, e: Ref<P>, depth: nat)
    ensures Run(ctx, AddBodyCorrected(ctx.cls, ctx.kind), Frame(1, [ThisV], Args(RefValue(e))), h, depth) ==
      Run(ctx, AddBodyCorrected(ctx.cls, ctx.kind), Frame(2, [ThisV, ThisV], Args(RefValue(e))), h, depth)
  {
    var b := AddBodyCorrected(ctx.cls, ctx.kind);
    RunStep(ctx, b, Frame(1, [ThisV], Args(RefValue(e))), h, depth, Frame(2, [ThisV, ThisV], Args(RefValue(e))), h);
  }

  lemma AddCorrectedGrowAt2<P>(ctx: Ctx<P>, h: Heap<P>, e: Ref<P>, depth: nat)
    ensures Run(ctx, AddBodyCorrected(ctx.cls, ctx.kind), Frame(2, [ThisV, ThisV], Args(RefValue(e))), h, depth) ==
      Run(ctx, AddBodyCorrected(ctx.cls, ctx.kind), Frame(3, [ThisV, IntV(h.size)], Args(RefValue(e))), h, depth)
  {
    var b := AddBodyCorrected(ctx.cls, ctx.kind);
    RunStep(ctx, b, Frame(2, [ThisV, ThisV], Args(RefValue(e))), h, depth, Frame(3, [ThisV, IntV(h.size)], Args(RefValue(e))), h);
  }

  lemma AddCorrectedGrowAt3<P>(ctx: Ctx<P>, h: Heap<P>, e: Ref<P>, depth: nat)
    ensures Run(ctx, AddBodyCorrected(ctx.cls, ctx.kind), Frame(3, [ThisV, IntV(h.size)], Args(RefValue(e))), h, depth) ==
      Run(ctx, AddBodyCorrected(ctx.cls, ctx.kind), Frame(4, [ThisV, IntV(h.size), IntV(1)], Args(RefValue(e))), h, depth)
  {
    var b := AddBodyCorrected(ctx.cls, ctx.kind);
    RunStep(ctx, b, Frame(3, [ThisV, IntV(h.size)], Args(RefValue(e))), h, depth, Frame(4, [ThisV, IntV(h.size), IntV(1)], Args(RefValue(e))), h);
  }

  lemma AddCorrectedGrowAt4<P>(ctx: Ctx<P>, h: Heap<P>, e: Ref<P>, depth: nat)
    ensures Run(ctx, AddBodyCorrected(ctx.cls, ctx.kind), Frame(4, [ThisV, IntV(h.size), IntV(1)], Args(RefValue(e))), h, depth) ==
      Run(ctx, AddBodyCorrected(ctx.cls, ctx.kind), Frame(5, [ThisV, IntV(Wrap(h.size as int + 1))], Args(RefValue(e))), h, depth)
  {
    var b := AddBodyCorrected(ctx.cls, ctx.kind);
    RunStep(ctx, b, Frame(4, [ThisV, IntV(h.size), IntV(1)], Args(RefValue(e))), h, depth, Frame(5, [ThisV, IntV(Wrap(h.size as int + 1))], Args(RefValue(e))), h);
  }

  /** `add` pushes `this` and `size + 1` for `ensureCapacity`. */
  lemma AddCorrectedGrow<P>(ctx: Ctx<P>, h: Heap<P>, e: Ref<P>, depth: nat)
    ensures Run(ctx, AddBodyCorrected(ctx.cls, ctx.kind), Entry(Args(RefValue(e))), h, depth) ==
      Run(ctx, AddBodyCorrected(ctx.cls, ctx.kind), Frame(5, [ThisV, IntV(Wrap(h.size as int + 1))], Args(RefValue(e))), h, depth)
  {
    AddCorrectedGrowAt0(ctx, h, e, depth);
    AddCorrectedGrowAt1(ctx, h, e, depth);
    AddCorrectedGrowAt2(ctx, h, e, depth);
    AddCorrectedGrowAt3(ctx, h, e, depth);
    AddCorrectedGrowAt4(ctx, h, e, depth);
  }

  lemma AddLoadAt6<P>(ctx: Ctx<P>, h: Heap<P>, e: Ref<P>, depth: nat)
    ensures Run(ctx, AddBody(ctx.cls, ctx.kind), Frame(6, [], Args(RefValue(e))), h, depth) ==
      Run(ctx, AddBody(ctx.cls, ctx.kind), Frame(7, [ThisV], Args(RefValue(e))), h, depth)
  {
    var b := AddBody(ctx.cls, ctx.kind);
    RunStep(ctx, b, Frame(6, [], Args(RefValue(e))), h, depth, Frame(7, [ThisV], Args(RefValue(e))), h);
  }

  lemma AddLoadAt7<P>(ctx: Ctx<P>, h: Heap<P>, e: Ref<P>, depth: nat)
    ensures Run(ctx, AddBody(ctx.cls, ctx.kind), Frame(7, [ThisV], Args(RefValue(e))), h, depth) ==
      Run(ctx, AddBody(ctx.cls, ctx.kind), Frame(8, [h.data], Args(RefValue(e))), h, depth)
  {
    var b := AddBody(ctx.cls, ctx.kind);
    RunStep(ctx, b, Frame(7, [ThisV], Args(RefValue(e))), h, depth, Frame(8, [h.data], Args(RefValue(e))), h);
  }

  lemma AddLoadAt8<P>(ctx: Ctx<P>, h: Heap<P>, e: Ref<P>, depth: nat)
    ensures Run(ctx, AddBody(ctx.cls, ctx.kind), Frame(8, [h.data], Args(RefValue(e))), h, depth) ==
      Run(ctx, AddBody(ctx.cls, ctx.kind), Frame(9, [h.data, ThisV], Args(RefValue(e))), h, depth)
  {
    var b := AddBody(ctx.cls, ctx.kind);
    RunStep(ctx, b, Frame(8, [h.data], Args(RefValue(e))), h, depth, Frame(9, [h.data, ThisV], Args(RefValue(e))), h);
  }

  lemma AddLoadAt9<P>(ctx: Ctx<P>, h: Heap<P>, e: Ref<P>, depth: nat)
    ensures Run(ctx, AddBody(ctx.cls, ctx.kind), Frame(9, [h.data, ThisV], Args(RefValue(e))), h, depth) ==
      Run(ctx, AddBody(ctx.cls, ctx.kind), Frame(10, [h.data, ThisV, ThisV], Args(RefValue(e))), h, depth)
  {
    var b := AddBody(ctx.cls, ctx.kind);
    RunStep(ctx, b, Frame(9, [h.data, ThisV], Args(RefValue(e))), h, depth, Frame(10, [h.data, ThisV, ThisV], Args(RefValue(e))), h);
  }

  lemma AddLoadAt10<P>(ctx: Ctx<P>, h: Heap<P>, e: Ref<P>, depth: nat)
    ensures Run(ctx, AddBody(ctx.cls, ctx.kind), Frame(10, [h.data, ThisV, ThisV], Args(RefValue(e))), h, depth) ==
      Run(ctx, AddBody(ctx.cls, ctx.kind), Frame(11, [h.data, ThisV, IntV(h.size)], Args(RefValue(e))), h, depth)
  {
    var b := AddBody(ctx.cls, ctx.kind);
    RunStep(ctx, b, Frame(10, [h.data, ThisV, ThisV], Args(RefValue(e))), h, depth, Frame(11, [h.data, ThisV, IntV(h.size)], Args(RefValue(e))), h);
  }

  /** `add` pushes `data`, `this` twice and `size`. */
  lemma AddLoad<P>(ctx: Ctx<P>, h: Heap<P>, e: Ref<P>, depth: nat)
    ensures Run(ctx, AddBody(ctx.cls, ctx.kind), Frame(6, [], Args(RefValue(e))), h, depth) ==
      Run(ctx, AddBody(ctx.cls, ctx.kind), Frame(11, [h.data, ThisV, IntV(h.size)], Args(RefValue(e))), h, depth)
  {
    AddLoadAt6(ctx, h, e, depth);
    AddLoadAt7(ctx, h, e, depth);
    AddLoadAt8(ctx, h, e, depth);
    AddLoadAt9(ctx, h, e, depth);
    AddLoadAt10(ctx, h, e, depth);
  }

  lemma AddWriteSizeAt11<P>(ctx: Ctx<P>, h: Heap<P>, e: Ref<P>, depth: nat)
    ensures Run(ctx, AddBody(ctx.cls, ctx.kind), Frame(11, [h.data, ThisV, IntV(h.size)], Args(RefValue(e))), h, depth) ==
      Run(ctx, AddBody(ctx.cls, ctx.kind), Frame(12, [h.data, IntV(h.size), ThisV, IntV(h.size)], Args(RefValue(e))), h, depth)
  {
    var b := AddBody(ctx.cls, ctx.kind);
    RunStep(ctx, b, Frame(11, [h.data, ThisV, IntV(h.size)], Args(RefValue(e))), h, depth, Frame(12, [h.data, IntV(h.size), ThisV, IntV(h.size)], Args(RefValue(e))), h);
  }

  lemma AddWriteSizeAt12<P>(ctx: Ctx<P>, h: Heap<P>, e: Ref<P>, depth: nat)
    ensures Run(ctx, AddBody(ctx.cls, ctx.kind), Frame(12, [h.data, IntV(h.size), ThisV, IntV(h.size)], Args(RefValue(e))), h, depth) ==
      Run(ctx, AddBody(ctx.cls, ctx.kind), Frame(13, [h.data, IntV(h.size), ThisV, IntV(h.size), IntV(1)], Args(RefValue(e))), h, depth)
  {
    var b := AddBody(ctx.cls, ctx.kind);
    RunStep(ctx, b, Frame(12, [h.data, IntV(h.size), ThisV, IntV(h.size)], Args(RefValue(e))), h, depth, Frame(13, [h.data, IntV(h.size), ThisV, IntV(h.size), IntV(1)], Args(RefValue(e))), h);
  }

  lemma AddWriteSizeAt13<P>(ctx: Ctx<P>, h: Heap<P>, e: Ref<P>, depth: nat)
    ensures Run(ctx, AddBody(ctx.cls, ctx.kind), Frame(13, [h.data, IntV(h.size), ThisV, IntV(h.size), IntV(1)], Args(RefValue(e))), h, depth) ==
      Run(ctx, AddBody(ctx.cls, ctx.kind), Frame(14, [h.data, IntV(h.size), ThisV, IntV(Wrap(h.size as int + 1))], Args(RefValue(e))), h, depth)
  {
    var b := AddBody(ctx.cls, ctx.kind);
    RunStep(ctx, b, Frame(13, [h.data, IntV(h.size), ThisV, IntV(h.size), IntV(1)], Args(RefValue(e))), h, depth, Frame(14, [h.data, IntV(h.size), ThisV, IntV(Wrap(h.size as int + 1))], Args(RefValue(e))), h);
  }

  lemma AddWriteSizeAt14<P>(ctx: Ctx<P>, h: Heap<P>, e: Ref<P>, depth: nat)
    ensures Run(ctx, AddBody(ctx.cls, ctx.kind), Frame(14, [h.data, IntV(h.size), ThisV, IntV(Wrap(h.size as int + 1))], Args(RefValue(e))), h, depth) ==
      Run(ctx, AddBody(ctx.cls, ctx.kind), Frame(15, [h.data, IntV(h.size)], Args(RefValue(e))), h.(size := Wrap(h.size as int + 1)), depth)
  {
    var b := AddBody(ctx.cls, ctx.kind);
    RunStep(ctx, b, Frame(14, [h.data, IntV(h.size), ThisV, IntV(Wrap(h.size as int + 1))], Args(RefValue(e))), h, depth, Frame(15, [h.data, IntV(h.size)], Args(RefValue(e))), h.(size := Wrap(h.size as int + 1)));
  }

  /** `dup_x1` keeps the old `size` under `this`, and `size + 1` is written back. */
  lemma AddWriteSize<P>(ctx: Ctx<P>, h: Heap<P>, e: Ref<P>, depth: nat)
    ensures Run(ctx, AddBody(ctx.cls, ctx.kind), Frame(11, [h.data, ThisV, IntV(h.size)], Args(RefValue(e))), h, depth) ==
      Run(ctx, AddBody(ctx.cls, ctx.kind), Frame(15, [h.data, IntV(h.size)], Args(RefValue(e))), h.(size := Wrap(h.size as int + 1)), depth)
  {
    AddWriteSizeAt11(ctx, h, e, depth);
    AddWriteSizeAt12(ctx, h, e, depth);
    AddWriteSizeAt13(ctx, h, e, depth);
    AddWriteSizeAt14(ctx, h, e, depth);
  }

  lemma AddUnboxNullAt15<P>(ctx: Ctx<P>, h: Heap<P>, e: Ref<P>, s: int32, depth: nat)
    requires e.Null?
    ensures Run(ctx, AddBody(ctx.cls, ctx.kind), Frame(15, [h.data, IntV(s)], Args(RefValue(e))), h, depth) ==
      Run(ctx, AddBody(ctx.cls, ctx.kind), Frame(16, [h.data, IntV(s), RefValue(e)], Args(RefValue(e))), h, depth)
  {
    var b := AddBody(ctx.cls, ctx.kind);
    RunStep(ctx, b, Frame(15, [h.data, IntV(s)], Args(RefValue(e))), h, depth, Frame(16, [h.data, IntV(s), RefValue(e)], Args(RefValue(e))), h);
  }

  lemma AddUnboxNullAt16<P>(ctx: Ctx<P>, h: Heap<P>, e: Ref<P>, s: int32, depth: nat)
    requires e.Null?
    ensures Run(ctx, AddBody(ctx.cls, ctx.kind), Frame(16, [h.data, IntV(s), RefValue(e)], Args(RefValue(e))), h, depth) ==
      Run(ctx, AddBody(ctx.cls, ctx.kind), Frame(17, [h.data, IntV(s), RefValue(e)], Args(RefValue(e))), h, depth)
  {
    var b := AddBody(ctx.cls, ctx.kind);
    RunStep(ctx, b, Frame(16, [h.data, IntV(s), RefValue(e)], Args(RefValue(e))), h, depth, Frame(17, [h.data, IntV(s), RefValue(e)], Args(RefValue(e))), h);
  }

  lemma AddUnboxNullAt17<P>(ctx: Ctx<P>, h: Heap<P>, e: Ref<P>, s: int32, depth: nat)
    requires e.Null?
    ensures Run(ctx, AddBody(ctx.cls, ctx.kind), Frame(17, [h.data, IntV(s), RefValue(e)], Args(RefValue(e))), h, depth) ==
      Threw(h, NullPointer)
  {
    var b := AddBody(ctx.cls, ctx.kind);
    RunStop(ctx, b, Frame(17, [h.data, IntV(s), RefValue(e)], Args(RefValue(e))), h, depth, Threw(h, NullPointer));
  }

  /** Unboxing a null element throws `NullPointerException`. */
  lemma AddUnboxNull<P>(ctx: Ctx<P>, h: Heap<P>, e: Ref<P>, s: int32, depth: nat)
    requires e.Null?
    ensures Run(ctx, AddBody(ctx.cls, ctx.kind), Frame(15, [h.data, IntV(s)], Args(RefValue(e))), h, depth) ==
      Threw(h, NullPointer)
  {
    AddUnboxNullAt15(ctx, h, e, s, depth);
    AddUnboxNullAt16(ctx, h, e, s, depth);
    AddUnboxNullAt17(ctx, h, e, s, depth);
  }

  lemma AddUnboxAt15<P>(ctx: Ctx<P>, h: Heap<P>, e: Ref<P>, s: int32, depth: nat)
    requires e.Obj?
    ensures Run(ctx, AddBody(ctx.cls, ctx.kind), Frame(15, [h.data, IntV(s)], Args(RefValue(e))), h, depth) ==
      Run(ctx, AddBody(ctx.cls, ctx.kind), Frame(16, [h.data, IntV(s), RefValue(e)], Args(RefValue(e))), h, depth)
  {
    var b := AddBody(ctx.cls, ctx.kind);
    RunStep(ctx, b, Frame(15, [h.data, IntV(s)], Args(RefValue(e))), h, depth, Frame(16, [h.data, IntV(s), RefValue(e)], Args(RefValue(e))), h);
  }

  lemma AddUnboxAt16<P>(ctx: Ctx<P>, h: Heap<P>, e: Ref<P>, s: int32, depth: nat)
    requires e.Obj?
    ensures Run(ctx, AddBody(ctx.cls, ctx.kind), Frame(16, [h.data, IntV(s), RefValue(e)], Args(RefValue(e))), h, depth) ==
      Run(ctx, AddBody(ctx.cls, ctx.kind), Frame(17, [h.data, IntV(s), RefValue(e)], Args(RefValue(e))), h, depth)
  {
    var b := AddBody(ctx.cls, ctx.kind);
    RunStep(ctx, b, Frame(16, [h.data, IntV(s), RefValue(e)], Args(RefValue(e))), h, depth, Frame(17, [h.data, IntV(s), RefValue(e)], Args(RefValue(e))), h);
  }

  lemma AddUnboxAt17<P>(ctx: Ctx<P>, h: Heap<P>, e: Ref<P>, s: int32, depth: nat)
    requires e.Obj?
    ensures Run(ctx, AddBody(ctx.cls, ctx.kind), Frame(17, [h.data, IntV(s), RefValue(e)], Args(RefValue(e))), h, depth) ==
      Run(ctx, AddBody(ctx.cls, ctx.kind), Frame(18, [h.data, IntV(s), PrimV(e.value)], Args(RefValue(e))), h, depth)
  {
    var b := AddBody(ctx.cls, ctx.kind);
    RunStep(ctx, b, Frame(17, [h.data, IntV(s), RefValue(e)], Args(RefValue(e))), h, depth, Frame(18, [h.data, IntV(s), PrimV(e.value)], Args(RefValue(e))), h);
  }

  /** A boxed element is unboxed. */
  lemma AddUnbox<P>(ctx: Ctx<P>, h: Heap<P>, e: Ref<P>, s: int32, depth: nat)
    requires e.Obj?
    ensures Run(ctx, AddBody(ctx.cls, ctx.kind), Frame(15, [h.data, IntV(s)], Args(RefValue(e))), h, depth) ==
      Run(ctx, AddBody(ctx.cls, ctx.kind), Frame(18, [h.data, IntV(s), PrimV(e.value)], Args(RefValue(e))), h, depth)
  {
    AddUnboxAt15(ctx, h, e, s, depth);
    AddUnboxAt16(ctx, h, e, s, depth);
    AddUnboxAt17(ctx, h, e, s, depth);
  }

  lemma AddStoreAt18<P>(ctx: Ctx<P>, h: Heap<P>, e: Ref<P>, s: int32, depth: nat)
    requires e.Obj?
    requires h.data.ArrV? && h.data.id < |h.arrays|
    requires 0 <= s as int < |h.arrays[h.data.id]|
    ensures Run(ctx, AddBody(ctx.cls, ctx.kind), Frame(18, [h.data, IntV(s), PrimV(e.value)], Args(RefValue(e))), h, depth) ==
      Run(ctx, AddBody(ctx.cls, ctx.kind), Frame(19, [], Args(RefValue(e))), h.(arrays := h.arrays[h.data.id := h.arrays[h.data.id][s := e.value]]), depth)
  {
    var b := AddBody(ctx.cls, ctx.kind);
    RunStep(ctx, b, Frame(18, [h.data, IntV(s), PrimV(e.value)], Args(RefValue(e))), h, depth, Frame(19, [], Args(RefValue(e))), h.(arrays := h.arrays[h.data.id := h.arrays[h.data.id][s := e.value]]));
  }

  lemma AddStoreAt19<P>(ctx: Ctx<P>, h: Heap<P>, e: Ref<P>, s: int32, depth: nat)
    requires e.Obj?
    requires h.data.ArrV? && h.data.id < |h.arrays|
    requires 0 <= s as int < |h.arrays[h.data.id]|
    ensures Run(ctx, AddBody(ctx.cls, ctx.kind), Frame(19, [], Args(RefValue(e))), h.(arrays := h.arrays[h.data.id := h.arrays[h.data.id][s := e.value]]), depth) ==
      Returned(h.(arrays := h.arrays[h.data.id := h.arrays[h.data.id][s := e.value]]), None)
  {
    var b := AddBody(ctx.cls, ctx.kind);
    RunStop(ctx, b, Frame(19, [], Args(RefValue(e))), h.(arrays := h.arrays[h.data.id := h.arrays[h.data.id][s := e.value]]), depth, Returned(h.(arrays := h.arrays[h.data.id := h.arrays[h.data.id][s := e.value]]), None));
  }

  /** The element is stored at the old `size`, and `add` returns. */
  lemma AddStore<P>(ctx: Ctx<P>, h: Heap<P>, e: Ref<P>, s: int32, depth: nat)
    requires e.Obj?
    requires h.data.ArrV? && h.data.id < |h.arrays|
    requires 0 <= s as int < |h.arrays[h.data.id]|
    ensures Run(ctx, AddBody(ctx.cls, ctx.kind), Frame(18, [h.data, IntV(s), PrimV(e.value)], Args(RefValue(e))), h, depth) ==
      Returned(h.(arrays := h.arrays[h.data.id := h.arrays[h.data.id][s := e.value]]), None)
  {
    AddStoreAt18(ctx, h, e, s, depth);
    AddStoreAt19(ctx, h, e, s, depth);
  }

  lemma AddStoreOutOfBoundsAt18<P>(ctx: Ctx<P>, h: Heap<P>, e: Ref<P>, s: int32, depth: nat)
    requires e.Obj?
    requires h.data.ArrV? && h.data.id < |h.arrays|
    requires !(0 <= s as int < |h.arrays[h.data.id]|)
    ensures Run(ctx, AddBody(ctx.cls, ctx.kind), Frame(18, [h.data, IntV(s), PrimV(e.value)], Args(RefValue(e))), h, depth) ==
      Threw(h, ArrayIndexOutOfBounds)
  {
    var b := AddBody(ctx.cls, ctx.kind);
    RunStop(ctx, b, Frame(18, [h.data, IntV(s), PrimV(e.value)], Args(RefValue(e))), h, depth, Threw(h, ArrayIndexOutOfBounds));
  }

  /** A store past the end of `data` throws `ArrayIndexOutOfBoundsException`. */
  lemma AddStoreOutOfBounds<P>(ctx: Ctx<P>, h: Heap<P>, e: Ref<P>, s: int32, depth: nat)
    requires e.Obj?
    requires h.data.ArrV? && h.data.id < |h.arrays|
    requires !(0 <= s as int < |h.arrays[h.data.id]|)
    ensures Run(ctx, AddBody(ctx.cls, ctx.kind), Frame(18, [h.data, IntV(s), PrimV(e.value)], Args(RefValue(e))), h, depth) ==
      Threw(h, ArrayIndexOutOfBounds)
  {
    AddStoreOutOfBoundsAt18(ctx, h, e, s, depth);
  }

  lemma AddCorrectedLoadAt6<P>(ctx: Ctx<P>, h: Heap<P>, e: Ref<P>, depth: nat)
    ensures Run(ctx, AddBodyCorrected(ctx.cls, ctx.kind), Frame(6, [], Args(RefValue(e))), h, depth) ==
      Run(ctx, AddBodyCorrected(ctx.cls, ctx.kind), Frame(7, [ThisV], Args(RefValue(e))), h, depth)
  {
    var b := AddBodyCorrected(ctx.cls, ctx.kind);
    RunStep(ctx, b, Frame(6, [], Args(RefValue(e))), h, depth, Frame(7, [ThisV], Args(RefValue(e))), h);
  }

  lemma AddCorrectedLoadAt7<P>(ctx: Ctx<P>, h: Heap<P>, e: Ref<P>, depth: nat)
    ensures Run(ctx, AddBodyCorrected(ctx.cls, ctx.kind), Frame(7, [ThisV], Args(RefValue(e))), h, depth) ==
      Run(ctx, AddBodyCorrected(ctx.cls, ctx.kind), Frame(8, [h.data], Args(RefValue(e))), h, depth)
  {
    var b := AddBodyCorrected(ctx.cls, ctx.kind);
    RunStep(ctx, b, Frame(7, [ThisV], Args(RefValue(e))), h, depth, Frame(8, [h.data], Args(RefValue(e))), h);
  }

  lemma AddCorrectedLoadAt8<P>(ctx: Ctx<P>, h: Heap<P>, e: Ref<P>, depth: nat)
    ensures Run(ctx, AddBodyCorrected(ctx.cls, ctx.kind), Frame(8, [h.data], Args(RefValue(e))), h, depth) ==
      Run(ctx, AddBodyCorrected(ctx.cls, ctx.kind), Frame(9, [h.data, ThisV], Args(RefValue(e))), h, depth)
  {
    var b := AddBodyCorrected(ctx.cls, ctx.kind);
    RunStep(ctx, b, Frame(8, [h.data], Args(RefValue(e))), h, depth, Frame(9, [h.data, ThisV], Args(RefValue(e))), h);
  }

  lemma AddCorrectedLoadAt9<P>(ctx: Ctx<P>, h: Heap<P>, e: Ref<P>, depth: nat)
    ensures Run(ctx, AddBodyCorrected(ctx.cls, ctx.kind), Frame(9, [h.data, ThisV], Args(RefValue(e))), h, depth) ==
      Run(ctx, AddBodyCorrected(ctx.cls, ctx.kind), Frame(10, [h.data, IntV(h.size)], Args(RefValue(e))), h, depth)
  {
    var b := AddBodyCorrected(ctx.cls, ctx.kind);
    RunStep(ctx, b, Frame(9, [h.data, ThisV], Args(RefValue(e))), h, depth, Frame(10, [h.data, IntV(h.size)], Args(RefValue(e))), h);
  }

  lemma AddCorrectedLoadAt10<P>(ctx: Ctx<P>, h: Heap<P>, e: Ref<P>, depth: nat)
    ensures Run(ctx, AddBodyCorrected(ctx.cls, ctx.kind), Frame(10, [h.data, IntV(h.size)], Args(RefValue(e))), h, depth) ==
      Run(ctx, AddBodyCorrected(ctx.cls, ctx.kind), Frame(11, [h.data, IntV(h.size), RefValue(e)], Args(RefValue(e))), h, depth)
  {
    var b := AddBodyCorrected(ctx.cls, ctx.kind);
    RunStep(ctx, b, Frame(10, [h.data, IntV(h.size)], Args(RefValue(e))), h, depth, Frame(11, [h.data, IntV(h.size), RefValue(e)], Args(RefValue(e))), h);
  }

  lemma AddCorrectedLoadAt11<P>(ctx: Ctx<P>, h: Heap<P>, e: Ref<P>, depth: nat)
    ensures Run(ctx, AddBodyCorrected(ctx.cls, ctx.kind), Frame(11, [h.data, IntV(h.size), RefValue(e)], Args(RefValue(e))), h, depth) ==
      Run(ctx, AddBodyCorrected(ctx.cls, ctx.kind), Frame(12, [h.data, IntV(h.size), RefValue(e)], Args(RefValue(e))), h, depth)
  {
    var b := AddBodyCorrected(ctx.cls, ctx.kind);
    RunStep(ctx, b, Frame(11, [h.data, IntV(h.size), RefValue(e)], Args(RefValue(e))), h, depth, Frame(12, [h.data, IntV(h.size), RefValue(e)], Args(RefValue(e))), h);
  }

  /** The corrected `add` pushes `data`, `size` and the element. */
  lemma AddCorrectedLoad<P>(ctx: Ctx<P>, h: Heap<P>, e: Ref<P>, depth: nat)
    ensures Run(ctx, AddBodyCorrected(ctx.cls, ctx.kind), Frame(6, [], Args(RefValue(e))), h, depth) ==
      Run(ctx, AddBodyCorrected(ctx.cls, ctx.kind), Frame(12, [h.data, IntV(h.size), RefValue(e)], Args(RefValue(e))), h, depth)
  {
    AddCorrectedLoadAt6(ctx, h, e, depth);
    AddCorrectedLoadAt7(ctx, h, e, depth);
    AddCorrectedLoadAt8(ctx, h, e, depth);
    AddCorrectedLoadAt9(ctx, h, e, depth);
    AddCorrectedLoadAt10(ctx, h, e, depth);
    AddCorrectedLoadAt11(ctx, h, e, depth);
  }

  lemma AddCorrectedUnboxNullAt12<P>(ctx: Ctx<P>, h: Heap<P>, e: Ref<P>, depth: nat)
    requires e.Null?
    ensures Run(ctx, AddBodyCorrected(ctx.cls, ctx.kind), Frame(12, [h.data, IntV(h.size), RefValue(e)], Args(RefValue(e))), h, depth) ==
      Threw(h, NullPointer)
  {
    var b := AddBodyCorrected(ctx.cls, ctx.kind);
    RunStop(ctx, b, Frame(12, [h.data, IntV(h.size), RefValue(e)], Args(RefValue(e))), h, depth, Threw(h, NullPointer));
  }

  /** Unboxing a null element throws before any field changes. */
  lemma AddCorrectedUnboxNull<P>(ctx: Ctx<P>, h: Heap<P>, e: Ref<P>, depth: nat)
    requires e.Null?
    ensures Run(ctx, AddBodyCorrected(ctx.cls, ctx.kind), Frame(12, [h.data, IntV(h.size), RefValue(e)], Args(RefValue(e))), h, depth) ==
      Threw(h, NullPointer)
  {
    AddCorrectedUnboxNullAt12(ctx, h, e, depth);
  }

  lemma AddCorrectedStoreAt12<P>(ctx: Ctx<P>, h: Heap<P>, e: Ref<P>, depth: nat)
    requires e.Obj?
    requires h.data.ArrV? && h.data.id < |h.arrays|
    requires 0 <= h.size as int < |h.arrays[h.data.id]|
    ensures Run(ctx, AddBodyCorrected(ctx.cls, ctx.kind), Frame(12, [h.data, IntV(h.size), RefValue(e)], Args(RefValue(e))), h, depth) ==
      Run(ctx, AddBodyCorrected(ctx.cls, ctx.kind), Frame(13, [h.data, IntV(h.size), PrimV(e.value)], Args(RefValue(e))), h, depth)
  {
    var b := AddBodyCorrected(ctx.cls, ctx.kind);
    RunStep(ctx, b, Frame(12, [h.data, IntV(h.size), RefValue(e)], Args(RefValue(e))), h, depth, Frame(13, [h.data, IntV(h.size), PrimV(e.value)], Args(RefValue(e))), h);
  }

  lemma AddCorrectedStoreAt13<P>(ctx: Ctx<P>, h: Heap<P>, e: Ref<P>, depth: nat)
    requires e.Obj?
    requires h.data.ArrV? && h.data.id < |h.arrays|
    requires 0 <= h.size as int < |h.arrays[h.data.id]|
    ensures Run(ctx, AddBodyCorrected(ctx.cls, ctx.kind), Frame(13, [h.data, IntV(h.size), PrimV(e.value)], Args(RefValue(e))), h, depth) ==
      Run(ctx, AddBodyCorrected(ctx.cls, ctx.kind), Frame(14, [], Args(RefValue(e))), h.(arrays := h.arrays[h.data.id := h.arrays[h.data.id][h.size := e.value]]), depth)
  {
    var b := AddBodyCorrected(ctx.cls, ctx.kind);
    RunStep(ctx, b, Frame(13, [h.data, IntV(h.size), PrimV(e.value)], Args(RefValue(e))), h, depth, Frame(14, [], Args(RefValue(e))), h.(arrays := h.arrays[h.data.id := h.arrays[h.data.id][h.size := e.value]]));
  }

  /** A boxed element is unboxed and stored at `size`. */
  lemma AddCorrectedStore<P>(ctx: Ctx<P>, h: Heap<P>, e: Ref<P>, depth: nat)
    requires e.Obj?
    requires h.data.ArrV? && h.data.id < |h.arrays|
    requires 0 <= h.size as int < |h.arrays[h.data.id]|
    ensures Run(ctx, AddBodyCorrected(ctx.cls, ctx.kind), Frame(12, [h.data, IntV(h.size), RefValue(e)], Args(RefValue(e))), h, depth) ==
      Run(ctx, AddBodyCorrected(ctx.cls, ctx.kind), Frame(14, [], Args(RefValue(e))), h.(arrays := h.arrays[h.data.id := h.arrays[h.data.id][h.size := e.value]]), depth)
  {
    AddCorrectedStoreAt12(ctx, h, e, depth);
    AddCorrectedStoreAt13(ctx, h, e, depth);
  }

  lemma AddCorrectedStoreOutOfBoundsAt12<P>(ctx: Ctx<P>, h: Heap<P>, e: Ref<P>, depth: nat)
    requires e.Obj?
    requires h.data.ArrV? && h.data.id < |h.arrays|
    requires !(0 <= h.size as int < |h.arrays[h.data.id]|)
    ensures Run(ctx, AddBodyCorrected(ctx.cls, ctx.kind), Frame(12, [h.data, IntV(h.size), RefValue(e)], Args(RefValue(e))), h, depth) ==
      Run(ctx, AddBodyCorrected(ctx.cls, ctx.kind), Frame(13, [h.data, IntV(h.size), PrimV(e.value)], Args(RefValue(e))), h, depth)
  {
    var b := AddBodyCorrected(ctx.cls, ctx.kind);
    RunStep(ctx, b, Frame(12, [h.data, IntV(h.size), RefValue(e)], Args(RefValue(e))), h, depth, Frame(13, [h.data, IntV(h.size), PrimV(e.value)], Args(RefValue(e))), h);
  }

  lemma AddCorrectedStoreOutOfBoundsAt13<P>(ctx: Ctx<P>, h: Heap<P>, e: Ref<P>, depth: nat)
    requires e.Obj?
    requires h.data.ArrV? && h.data.id < |h.arrays|
    requires !(0 <= h.size as int < |h.arrays[h.data.id]|)
    ensures Run(ctx, AddBodyCorrected(ctx.cls, ctx.kind), Frame(13, [h.data, IntV(h.size), PrimV(e.value)], Args(RefValue(e))), h, depth) ==
      Threw(h, ArrayIndexOutOfBounds)
  {
    var b := AddBodyCorrected(ctx.cls, ctx.kind);
    RunStop(ctx, b, Frame(13, [h.data, IntV(h.size), PrimV(e.value)], Args(RefValue(e))), h, depth, Threw(h, ArrayIndexOutOfBounds));
  }

  /** A store past the end of `data` throws before `size` changes. */
  lemma AddCorrectedStoreOutOfBounds<P>(ctx: Ctx<P>, h: Heap<P>, e: Ref<P>, depth: nat)
    requires e.Obj?
    requires h.data.ArrV? && h.data.id < |h.arrays|
    requires !(0 <= h.size as int < |h.arrays[h.data.id]|)
    ensures Run(ctx, AddBodyCorrected(ctx.cls, ctx.kind), Frame(12, [h.data, IntV(h.size), RefValue(e)], Args(RefValue(e))), h, depth) ==
      Threw(h, ArrayIndexOutOfBounds)
  {
    AddCorrectedStoreOutOfBoundsAt12(ctx, h, e, depth);
    AddCorrectedStoreOutOfBoundsAt13(ctx, h, e, depth);
  }

  lemma AddCorrectedWriteSizeAt14<P>(ctx: Ctx<P>, h: Heap<P>, e: Ref<P>, depth: nat)
    ensures Run(ctx, AddBodyCorrected(ctx.cls, ctx.kind), Frame(14, [], Args(RefValue(e))), h, depth) ==
      Run(ctx, AddBodyCorrected(ctx.cls, ctx.kind), Frame(15, [ThisV], Args(RefValue(e))), h, depth)
  {
    var b := AddBodyCorrected(ctx.cls, ctx.kind);
    RunStep(ctx, b, Frame(14, [], Args(RefValue(e))), h, depth, Frame(15, [ThisV], Args(RefValue(e))), h);
  }

  lemma AddCorrectedWriteSizeAt15<P>(ctx: Ctx<P>, h: Heap<P>, e: Ref<P>, depth: nat)
    ensures Run(ctx, AddBodyCorrected(ctx.cls, ctx.kind), Frame(15, [ThisV], Args(RefValue(e))), h, depth) ==
      Run(ctx, AddBodyCorrected(ctx.cls, ctx.kind), Frame(16, [ThisV, ThisV], Args(RefValue(e))), h, depth)
  {
    var b := AddBodyCorrected(ctx.cls, ctx.kind);
    RunStep(ctx, b, Frame(15, [ThisV], Args(RefValue(e))), h, depth, Frame(16, [ThisV, ThisV], Args(RefValue(e))), h);
  }

  lemma AddCorrectedWriteSizeAt16<P>(ctx: Ctx<P>, h: Heap<P>, e: Ref<P>, depth: nat)
    ensures Run(ctx, AddBodyCorrected(ctx.cls, ctx.kind), Frame(16, [ThisV, ThisV], Args(RefValue(e))), h, depth) ==
      Run(ctx, AddBodyCorrected(ctx.cls, ctx.kind), Frame(17, [ThisV, IntV(h.size)], Args(RefValue(e))), h, depth)
  {
    var b := AddBodyCorrected(ctx.cls, ctx.kind);
    RunStep(ctx, b, Frame(16, [ThisV, ThisV], Args(RefValue(e))), h, depth, Frame(17, [ThisV, IntV(h.size)], Args(RefValue(e))), h);
  }

  lemma AddCorrectedWriteSizeAt17<P>(ctx: Ctx<P>, h: Heap<P>, e: Ref<P>, depth: nat)
    ensures Run(ctx, AddBodyCorrected(ctx.cls, ctx.kind), Frame(17, [ThisV, IntV(h.size)], Args(RefValue(e))), h, depth) ==
      Run(ctx, AddBodyCorrected(ctx.cls, ctx.kind), Frame(18, [ThisV, IntV(h.size), IntV(1)], Args(RefValue(e))), h, depth)
  {
    var b := AddBodyCorrected(ctx.cls, ctx.kind);
    RunStep(ctx, b, Frame(17, [ThisV, IntV(h.size)], Args(RefValue(e))), h, depth, Frame(18, [ThisV, IntV(h.size), IntV(1)], Args(RefValue(e))), h);
  }

  lemma AddCorrectedWriteSizeAt18<P>(ctx: Ctx<P>, h: Heap<P>, e: Ref<P>, depth: nat)
    ensures Run(ctx, AddBodyCorrected(ctx.cls, ctx.kind), Frame(18, [ThisV, IntV(h.size), IntV(1)], Args(RefValue(e))), h, depth) ==
      Run(ctx, AddBodyCorrected(ctx.cls, ctx.kind), Frame(19, [ThisV, IntV(Wrap(h.size as int + 1))], Args(RefValue(e))), h, depth)
  {
    var b := AddBodyCorrected(ctx.cls, ctx.kind);
    RunStep(ctx, b, Frame(18, [ThisV, IntV(h.size), IntV(1)], Args(RefValue(e))), h, depth, Frame(19, [ThisV, IntV(Wrap(h.size as int + 1))], Args(RefValue(e))), h);
  }

  lemma AddCorrectedWriteSizeAt19<P>(ctx: Ctx<P>, h: Heap<P>, e: Ref<P>, depth: nat)
    ensures Run(ctx, AddBodyCorrected(ctx.cls, ctx.kind), Frame(19, [ThisV, IntV(Wrap(h.size as int + 1))], Args(RefValue(e))), h, depth) ==
      Run(ctx, AddBodyCorrected(ctx.cls, ctx.kind), Frame(20, [], Args(RefValue(e))), h.(size := Wrap(h.size as int + 1)), depth)
  {
    var b := AddBodyCorrected(ctx.cls, ctx.kind);
    RunStep(ctx, b, Frame(19, [ThisV, IntV(Wrap(h.size as int + 1))], Args(RefValue(e))), h, depth, Frame(20, [], Args(RefValue(e))), h.(size := Wrap(h.size as int + 1)));
  }

  lemma AddCorrectedWriteSizeAt20<P>(ctx: Ctx<P>, h: Heap<P>, e: Ref<P>, depth: nat)
    ensures Run(ctx, AddBodyCorrected(ctx.cls, ctx.kind), Frame(20, [], Args(RefValue(e))), h.(size := Wrap(h.size as int + 1)), depth) ==
      Returned(h.(size := Wrap(h.size as int + 1)), None)
  {
    var b := AddBodyCorrected(ctx.cls, ctx.kind);
    RunStop(ctx, b, Frame(20, [], Args(RefValue(e))), h.(size := Wrap(h.size as int + 1)), depth, Returned(h.(size := Wrap(h.size as int + 1)), None));
  }

  /** Then `size + 1` is written back and `add` returns. */
  lemma AddCorrectedWriteSize<P>(ctx: Ctx<P>, h: Heap<P>, e: Ref<P>, depth: nat)
    ensures Run(ctx, AddBodyCorrected(ctx.cls, ctx.kind), Frame(14, [], Args(RefValue(e))), h, depth) ==
      Returned(h.(size := Wrap(h.size as int + 1)), None)
  {
    AddCorrectedWriteSizeAt14(ctx, h, e, depth);
    AddCorrectedWriteSizeAt15(ctx, h, e, depth);
    AddCorrectedWriteSizeAt16(ctx, h, e, depth);
    AddCorrectedWriteSizeAt17(ctx, h, e, depth);
    AddCorrectedWriteSizeAt18(ctx, h, e, depth);
    AddCorrectedWriteSizeAt19(ctx, h, e, depth);
    AddCorrectedWriteSizeAt20(ctx, h, e, depth);
  }

}
