/**
 * What the emitted bodies do when run: each theorem runs one body of the
 * generated class on a heap holding a list of `elems` and states how the
 * body ends and which list the heap then holds. These are the behaviours
 * the `GeneratedCompactList` class gives its methods.
 *
 * `add` and `get` call the private methods, so they need one frame more
 * than the call depth they start at (`depth >= 1`).
 */
module EmittedRuns {

  import opened Common
  import opened Capacity
  import opened Bytecode
  import opened Generator
  import opened Execution
  import opened RunSteps

  /**
   * The constructor, run on a new object whose fields still hold their
   * defaults (`data` null, `size` 0), leaves an empty list with a fresh
   * array of ten default values; the arrays already allocated are untouched.
   */
  lemma ConstructorRun<P>(ctx: Ctx<P>, arrays: seq<seq<P>>, depth: nat)
    ensures var o := Run(ctx, ConstructorBody(ctx.cls, ctx.kind), Entry(map[0 := ThisV]), Heap(arrays, NullV, 0), depth);
      o.Returned? && o.result.None? && Holds(ctx, o.heap, []) &&
      o.heap.data == ArrV(|arrays|) && |DataArray(o.heap)| == DEFAULT_CAPACITY as int &&
      o.heap.arrays[..|arrays|] == arrays
  {
    var h := Heap(arrays, NullV, 0);
    ConstructorInit(ctx, h, depth);
    ConstructorArray(ctx, h, depth);
    var h' := h.(arrays := h.arrays + [Filled(10, ctx.zero)]).(data := ArrV(|h.arrays|));
    assert h'.arrays[..|arrays|] == arrays;
  }

  /** `size()` returns the number of elements and changes nothing. */
  lemma SizeRun<P>(ctx: Ctx<P>, h: Heap<P>, elems: seq<P>, depth: nat)
    requires Holds(ctx, h, elems)
    ensures Run(ctx, SizeBody(ctx.cls), Entry(map[0 := ThisV]), h, depth) == Returned(h, Some(IntV(|elems| as int32)))
  {
    SizeRead(ctx, h, depth);
  }

  /** `checkRange(index)` returns exactly when `0 <= index < size`, and otherwise throws `IndexOutOfBoundsException`; it changes nothing. */
  lemma CheckRangeRun<P>(ctx: Ctx<P>, h: Heap<P>, elems: seq<P>, index: int32, depth: nat)
    requires Holds(ctx, h, elems)
    ensures Run(ctx, CheckRangeBody(ctx.cls), Entry(Args(IntV(index))), h, depth) ==
      if 0 <= index as int < |elems| then Returned(h, None) else Threw(h, IndexOutOfBounds)
  {
    if index < 0 {
      CheckRangeNegative(ctx, h, index, depth);
      CheckRangeThrow(ctx, h, index, depth);
    } else {
      CheckRangeCompare(ctx, h, index, depth);
      if index < h.size {
        CheckRangeBelowSize(ctx, h, index, depth);
      } else {
        CheckRangeFromSize(ctx, h, index, depth);
        CheckRangeThrow(ctx, h, index, depth);
      }
    }
  }

  /** `get(index)` returns the boxed element at `index` when it is in range, and otherwise throws `IndexOutOfBoundsException`; it changes nothing. */
  lemma GetRun<P>(ctx: Ctx<P>, h: Heap<P>, elems: seq<P>, index: int32, depth: nat)
    requires Holds(ctx, h, elems) && depth >= 1
    ensures Run(ctx, GetBody(ctx.cls, ctx.kind), Entry(Args(IntV(index))), h, depth) ==
      if 0 <= index as int < |elems| then Returned(h, Some(BoxV(elems[index]))) else Threw(h, IndexOutOfBounds)
  {
    var b := GetBody(ctx.cls, ctx.kind);
    var L := Args(IntV(index));
    GetCall(ctx, h, index, depth);
    CheckRangeRun(ctx, h, elems, index, depth - 1);
    var o := Run(ctx, CheckRangeBody(ctx.cls), Entry(Args(IntV(index))), h, depth - 1);
    RunCall(ctx, b, Frame(2, [ThisV, IntV(index)], L), h, depth, CheckRangeBody(ctx.cls), o);
    if 0 <= index as int < |elems| {
      GetLoad(ctx, h, index, depth);
      assert DataArray(h)[..|elems|][index] == elems[index];
    }
  }

  /**
   * `ensureCapacity(minCapacity)` always returns normally: the missing
   * overflow check cannot produce a negative length for `copyOf`. When the
   * array has `minCapacity` slots nothing changes; otherwise `data` refers
   * to a new array of `Grown(length, minCapacity)` slots that begins with
   * the old array. The elements stay the same.
   */
  lemma EnsureCapacityRun<P>(ctx: Ctx<P>, h: Heap<P>, elems: seq<P>, minCapacity: int32, depth: nat)
    requires Holds(ctx, h, elems)
    ensures var o := Run(ctx, EnsureCapacityBody(ctx.cls, ctx.kind), Entry(Args(IntV(minCapacity))), h, depth);
      var a := DataArray(h);
      o.Returned? && o.result.None? && Holds(ctx, o.heap, elems) &&
      |DataArray(o.heap)| >= minCapacity as int &&
      (|a| >= minCapacity as int ==> o.heap == h) &&
      (|a| < minCapacity as int ==>
        o.heap.data == ArrV(|h.arrays|) && o.heap.arrays == h.arrays + [DataArray(o.heap)] &&
        |DataArray(o.heap)| == Grown(|a| as int32, minCapacity) as int && DataArray(o.heap)[..|a|] == a)
  {
    var a := DataArray(h);
    EnsureCapacityCompare(ctx, h, minCapacity, depth);
    if |a| >= minCapacity as int {
      EnsureCapacityLongEnough(ctx, h, minCapacity, depth);
    } else {
      EnsureCapacityDouble(ctx, h, minCapacity, depth);
      EnsureCapacityMax(ctx, h, minCapacity, depth);
      var g := Grown(|a| as int32, minCapacity);
      GrownIsLonger(|a| as int32, minCapacity);
      EnsureCapacityCopy(ctx, h, minCapacity, depth);
      var copy := Copied(a, g as nat, ctx.zero);
      var h' := h.(arrays := h.arrays + [copy]).(data := ArrV(|h.arrays|));
      assert DataArray(h') == copy;
      assert copy[..|a|] == a;
      assert copy[..|elems|] == elems by {
        assert a[..|elems|] == elems;
      }
    }
  }

  /**
   * `add(element)` as emitted. Below 2^31 - 1 elements the array first
   * grows if full; `size` then goes up by one whatever the element; a boxed
   * element is stored at the old `size`, while a null one throws
   * `NullPointerException` and leaves the default value there. At 2^31 - 1
   * elements nothing but `size` changes: it wraps to -2^31 before the
   * element is unboxed or stored.
   */
  lemma AddRun<P>(ctx: Ctx<P>, h: Heap<P>, elems: seq<P>, e: Ref<P>, depth: nat)
    requires Holds(ctx, h, elems) && depth >= 1
    ensures var o := Run(ctx, AddBody(ctx.cls, ctx.kind), Entry(Args(RefValue(e))), h, depth);
      var len := |DataArray(h)|;
      (|elems| < MAX_INT ==>
        !o.Stuck? && o.heap.data.ArrV? && o.heap.data.id < |o.heap.arrays| &&
        |DataArray(o.heap)| == (if len > |elems| then len else Grown(len as int32, (|elems| + 1) as int32) as int)) &&
      (|elems| < MAX_INT && e.Obj? ==> o.Returned? && o.result.None? && Holds(ctx, o.heap, elems + [e.value])) &&
      (|elems| < MAX_INT && e.Null? ==> o.Threw? && o.error == NullPointer && Holds(ctx, o.heap, elems + [ctx.zero])) &&
      (|elems| == MAX_INT ==>
        o == Threw(h.(size := MIN_INT as int32), if e.Null? then NullPointer else ArrayIndexOutOfBounds))
  {
    var b := AddBody(ctx.cls, ctx.kind);
    var L := Args(RefValue(e));
    var m := Wrap(h.size as int + 1);
    AddGrow(ctx, h, e, depth);
    EnsureCapacityRun(ctx, h, elems, m, depth - 1);
    var o1 := Run(ctx, EnsureCapacityBody(ctx.cls, ctx.kind), Entry(Args(IntV(m))), h, depth - 1);
    RunCall(ctx, b, Frame(5, [ThisV, IntV(m)], L), h, depth, EnsureCapacityBody(ctx.cls, ctx.kind), o1);
    if |elems| == MAX_INT {
      WrapAbove(MAX_INT + 1);
    }
    AddAfterGrowth(ctx, o1.heap, elems, e, depth);
  }

  /** The rest of the emitted `add`, once `ensureCapacity` has made room for `size + 1` elements. */
  lemma AddAfterGrowth<P>(ctx: Ctx<P>, h: Heap<P>, elems: seq<P>, e: Ref<P>, depth: nat)
    requires Holds(ctx, h, elems)
    requires |elems| < MAX_INT ==> |elems| < |DataArray(h)|
    ensures var o := Run(ctx, AddBody(ctx.cls, ctx.kind), Frame(6, [], Args(RefValue(e))), h, depth);
      (|elems| < MAX_INT ==>
        !o.Stuck? && o.heap.data == h.data && |o.heap.arrays| == |h.arrays| && |DataArray(o.heap)| == |DataArray(h)|) &&
      (|elems| < MAX_INT && e.Obj? ==> o.Returned? && o.result.None? && Holds(ctx, o.heap, elems + [e.value])) &&
      (|elems| < MAX_INT && e.Null? ==> o.Threw? && o.error == NullPointer && Holds(ctx, o.heap, elems + [ctx.zero])) &&
      (|elems| == MAX_INT ==>
        o == Threw(h.(size := Wrap(h.size as int + 1)), if e.Null? then NullPointer else ArrayIndexOutOfBounds))
  {
    AddLoad(ctx, h, e, depth);
    AddWriteSize(ctx, h, e, depth);
    var h2 := h.(size := Wrap(h.size as int + 1));
    if e.Null? {
      AddUnboxNull(ctx, h2, e, h.size, depth);
      if |elems| < MAX_INT {
        AppendDefault(ctx, h, elems, h2.size);
      }
    } else {
      AddUnbox(ctx, h2, e, h.size, depth);
      if 0 <= h.size as int < |DataArray(h)| {
        AddStore(ctx, h2, e, h.size, depth);
        AppendStored(ctx, h, elems, e.value);
      } else {
        AddStoreOutOfBounds(ctx, h2, e, h.size, depth);
      }
    }
  }

  /**
   * `add(element)` with the store moved before the `size` update: a null
   * element throws with the list unchanged, at any size; below 2^31 - 1
   * elements a boxed element is appended; at 2^31 - 1 elements the store
   * throws `ArrayIndexOutOfBoundsException` and nothing changes.
   */
  lemma AddCorrectedRun<P>(ctx: Ctx<P>, h: Heap<P>, elems: seq<P>, e: Ref<P>, depth: nat)
    requires Holds(ctx, h, elems) && depth >= 1
    ensures var o := Run(ctx, AddBodyCorrected(ctx.cls, ctx.kind), Entry(Args(RefValue(e))), h, depth);
      var len := |DataArray(h)|;
      (|elems| < MAX_INT ==>
        !o.Stuck? && o.heap.data.ArrV? && o.heap.data.id < |o.heap.arrays| &&
        |DataArray(o.heap)| == (if len > |elems| then len else Grown(len as int32, (|elems| + 1) as int32) as int)) &&
      (|elems| < MAX_INT && e.Obj? ==> o.Returned? && o.result.None? && Holds(ctx, o.heap, elems + [e.value])) &&
      (e.Null? ==> o.Threw? && o.error == NullPointer && Holds(ctx, o.heap, elems)) &&
      (|elems| == MAX_INT && e.Obj? ==> o == Threw(h, ArrayIndexOutOfBounds))
  {
    var b := AddBodyCorrected(ctx.cls, ctx.kind);
    var L := Args(RefValue(e));
    var m := Wrap(h.size as int + 1);
    AddCorrectedGrow(ctx, h, e, depth);
    EnsureCapacityRun(ctx, h, elems, m, depth - 1);
    var o1 := Run(ctx, EnsureCapacityBody(ctx.cls, ctx.kind), Entry(Args(IntV(m))), h, depth - 1);
    RunCall(ctx, b, Frame(5, [ThisV, IntV(m)], L), h, depth, EnsureCapacityBody(ctx.cls, ctx.kind), o1);
    if |elems| == MAX_INT {
      WrapAbove(MAX_INT + 1);
    }
    AddCorrectedAfterGrowth(ctx, o1.heap, elems, e, depth);
  }

  /** The rest of the corrected `add`, once `ensureCapacity` has made room for `size + 1` elements. */
  lemma AddCorrectedAfterGrowth<P>(ctx: Ctx<P>, h: Heap<P>, elems: seq<P>, e: Ref<P>, depth: nat)
    requires Holds(ctx, h, elems)
    requires |elems| < MAX_INT ==> |elems| < |DataArray(h)|
    ensures var o := Run(ctx, AddBodyCorrected(ctx.cls, ctx.kind), Frame(6, [], Args(RefValue(e))), h, depth);
      (|elems| < MAX_INT ==>
        !o.Stuck? && o.heap.data == h.data && |o.heap.arrays| == |h.arrays| && |DataArray(o.heap)| == |DataArray(h)|) &&
      (|elems| < MAX_INT && e.Obj? ==> o.Returned? && o.result.None? && Holds(ctx, o.heap, elems + [e.value])) &&
      (e.Null? ==> o == Threw(h, NullPointer)) &&
      (|elems| == MAX_INT && e.Obj? ==> o == Threw(h, ArrayIndexOutOfBounds))
  {
    AddCorrectedLoad(ctx, h, e, depth);
    var a := DataArray(h);
    if e.Null? {
      AddCorrectedUnboxNull(ctx, h, e, depth);
    } else if 0 <= h.size as int < |a| {
      AddCorrectedStore(ctx, h, e, depth);
      var h' := h.(arrays := h.arrays[h.data.id := a[h.size := e.value]]);
      AddCorrectedWriteSize(ctx, h', e, depth);
      AppendStored(ctx, h, elems, e.value);
    } else {
      AddCorrectedStoreOutOfBounds(ctx, h, e, depth);
    }
  }

  /** Raising `size` by one over a default slot appends the default value. */
  lemma AppendDefault<P>(ctx: Ctx<P>, h: Heap<P>, elems: seq<P>, m: int32)
    requires Holds(ctx, h, elems) && |elems| < |DataArray(h)| && m as int == |elems| + 1
    ensures Holds(ctx, h.(size := m), elems + [ctx.zero])
  {
    var a := DataArray(h);
    assert a[..|elems| + 1] == a[..|elems|] + [a[|elems|]];
  }

  /** Storing `v` at index `size` and raising `size` by one appends `v`. */
  lemma AppendStored<P>(ctx: Ctx<P>, h: Heap<P>, elems: seq<P>, v: P)
    requires Holds(ctx, h, elems) && |elems| < |DataArray(h)|
    ensures var a := DataArray(h);
      Holds(ctx, h.(arrays := h.arrays[h.data.id := a[h.size := v]]).(size := Wrap(h.size as int + 1)), elems + [v])
  {
    var a := DataArray(h);
    var a' := a[h.size := v];
    assert a'[..|elems| + 1] == a[..|elems|] + [v];
  }
}
