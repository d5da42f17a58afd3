/**
 * What the list generator emits for one primitive kind: the two field
 * declarations and the six method bodies, each with the maximum stack depth
 * and number of local slots its `visitMaxs` call declares.
 *
 * Label 1 and label 2 stand for the `l1` and `l2` objects of the emitting
 * methods; every label the generator places is followed by an F_SAME frame.
 */
module Generator {

  import opened Common
  import opened Bytecode

  /** A field declaration of the generated class. */
  datatype FieldDecl = FieldDecl(name: string, descriptor: string, isPrivate: bool)

  /** The fields declared by `generateFields`: a private primitive array and a private `int`. */
  function Fields(k: PrimKind): seq<FieldDecl>
  {
    [ FieldDecl("data", ['[', DescriptorChar(k)], true),
      FieldDecl("size", "I", true) ]
  }

  /** Reads the element kind back from an array field descriptor. */
  function ArrayElementKind(descriptor: string): (r: Option<PrimKind>)
    ensures r.Some? ==> descriptor == ['[', DescriptorChar(r.value)]
  {
    if |descriptor| == 2 && descriptor[0] == '[' then KindOfDescriptor(descriptor[1]) else None
  }

  /**
   * Two private fields, `data` and then `size`; the kind can be read back
   * from `data`'s descriptor, so different kinds give different layouts.
   */
  lemma FieldLayout(k: PrimKind, k': PrimKind)
    ensures |Fields(k)| == 2 && Fields(k)[0].isPrivate && Fields(k)[1].isPrivate
    ensures Fields(k)[0].name == "data" && ArrayElementKind(Fields(k)[0].descriptor) == Some(k)
    ensures Fields(k)[1].name == "size" && Fields(k)[1].descriptor == "I"
    ensures Fields(k) == Fields(k') ==> k == k'
  {
    match k
    case Boolean => case Byte => case Char => case Short =>
    case Int => case Float => case Long => case Double =>
  }

  /** `<init>()V`: calls `Object.<init>` and stores a new array of ten elements in `data`. */
  function ConstructorBody(cls: string, k: PrimKind): Body
  {
    Body([ ALoad(0), Invoke(Special, ObjectInit) ] +
         [ ALoad(0), BiPush(10), NewArray(k), PutField(cls, Data) ] +
         [ Return ],
         2, 1)
  }

  /** `size()I`: returns the `size` field. */
  function SizeBody(cls: string): Body
  {
    Body([ ALoad(0), GetField(cls, Size), IReturn ], 1, 1)
  }

  /** `add(Ljava/lang/Object;)V`: grows, writes `size + 1` back, then unboxes and stores at the old size. */
  function AddBody(cls: string, k: PrimKind): Body
  {
    Body([ ALoad(0), ALoad(0), GetField(cls, Size), IConst(1), IAdd, Invoke(Special, EnsureCapacity(cls)) ] +
         [ ALoad(0), GetField(cls, Data), ALoad(0), ALoad(0), GetField(cls, Size) ] +
         [ DupX1, IConst(1), IAdd, PutField(cls, Size) ] +
         [ ALoad(1), CheckCast(Wrapper(k)), Invoke(Virtual, Unbox(k)), ArrayStore(k) ] +
         [ Return ],
         5, 2)
  }

  /** `get(I)Ljava/lang/Object;`: range check, array load, box. */
  function GetBody(cls: string, k: PrimKind): Body
  {
    Body([ ALoad(0), ILoad(1), Invoke(Special, CheckRange(cls)) ] +
         [ ALoad(0), GetField(cls, Data), ILoad(1), ArrayLoad(k) ] +
         [ Invoke(Static, ValueOf(k)), AReturn ],
         2, 2)
  }

  /** `checkRange(I)V`: throws unless `0 <= index < size`. */
  function CheckRangeBody(cls: string): Body
  {
    Body([ ILoad(1), IfLt(1) ] +
         [ ILoad(1), ALoad(0), GetField(cls, Size), IfICmpLt(2) ] +
         [ PlaceSame(1), New(BoundsException), Dup, Invoke(Special, ExceptionInit), AThrow ] +
         [ PlaceSame(2), Return ],
         2, 2)
  }

  /** `ensureCapacity(I)V`: replaces `data` by a copy of length `max(2 * length, minCapacity)` when too short. */
  function EnsureCapacityBody(cls: string, k: PrimKind): Body
  {
    Body([ ALoad(0), GetField(cls, Data), ArrayLength, ILoad(1), IfICmpGe(1) ] +
         [ ALoad(0), GetField(cls, Data), ArrayLength, IConst(2), IMul ] +
         [ ILoad(1), Invoke(Static, MathMax), IStore(2) ] +
         [ ALoad(0), ALoad(0), GetField(cls, Data), ILoad(2), Invoke(Static, CopyOf(k)), PutField(cls, Data) ] +
         [ PlaceSame(1), Return ],
         3, 3)
  }

  /**
   * `add` with the store moved before the `size` update, so that a null
   * element throws before any field changes: the array store takes the
   * current `size` as its index, and `size + 1` is written back afterwards.
   * It needs one slot less than the emitted `add`.
   */
  function AddBodyCorrected(cls: string, k: PrimKind): Body
  {
    Body([ ALoad(0), ALoad(0), GetField(cls, Size), IConst(1), IAdd, Invoke(Special, EnsureCapacity(cls)) ] +
         [ ALoad(0), GetField(cls, Data), ALoad(0), GetField(cls, Size) ] +
         [ ALoad(1), CheckCast(Wrapper(k)), Invoke(Virtual, Unbox(k)), ArrayStore(k) ] +
         [ ALoad(0), Dup, GetField(cls, Size), IConst(1), IAdd, PutField(cls, Size) ] +
         [ Return ],
         4, 2)
  }

  /** The constructor body: the superclass constructor runs first, and the only field written is `data`. */
  lemma ConstructorShape(cls: string, k: PrimKind)
    ensures var r := ConstructorBody(cls, k); |r.code| == 7 && r.maxStack == 2 && r.maxLocals == 1
    ensures var r := ConstructorBody(cls, k); r.code[1] == Invoke(Special, ObjectInit) && r.code[6] == Return
    ensures var r := ConstructorBody(cls, k); forall i :: 0 <= i < |r.code| && r.code[i].PutField? ==> i > 1 && r.code[i] == PutField(cls, Data)
  {
  }

  /** `size` reads the `size` field, returns it, and writes no field. */
  lemma SizeShape(cls: string)
    ensures var r := SizeBody(cls); |r.code| == 3 && r.maxStack == 1 && r.maxLocals == 1
    ensures var r := SizeBody(cls); r.code[1] == GetField(cls, Size) && r.code[2] == IReturn
    ensures var r := SizeBody(cls); forall i :: 0 <= i < |r.code| ==> !r.code[i].PutField?
  {
  }

  /** `add` makes room before touching any field, and writes `size` back (index 14) before it unboxes the element (index 17) and stores it. */
  lemma AddShape(cls: string, k: PrimKind)
    ensures var r := AddBody(cls, k); |r.code| == 20 && r.maxStack == 5 && r.maxLocals == 2
    ensures var r := AddBody(cls, k); r.code[5] == Invoke(Special, EnsureCapacity(cls)) && r.code[19] == Return
    ensures var r := AddBody(cls, k); forall i :: 0 <= i < 5 ==> !r.code[i].PutField? && !r.code[i].Invoke?
    ensures var r := AddBody(cls, k); r.code[14] == PutField(cls, Size) && r.code[17] == Invoke(Virtual, Unbox(k)) && r.code[18] == ArrayStore(k)
  {
  }

  /** `get` checks the range before it loads from the array, then boxes the element; it writes no field. */
  lemma GetShape(cls: string, k: PrimKind)
    ensures var r := GetBody(cls, k); |r.code| == 9 && r.maxStack == 2 && r.maxLocals == 2
    ensures var r := GetBody(cls, k); r.code[2] == Invoke(Special, CheckRange(cls)) && r.code[6] == ArrayLoad(k)
    ensures var r := GetBody(cls, k); r.code[7] == Invoke(Static, ValueOf(k)) && r.code[8] == AReturn
    ensures var r := GetBody(cls, k); forall i :: 0 <= i < |r.code| ==> !r.code[i].PutField?
  {
  }

  /** `checkRange`: `iflt` jumps to the throw at label 1, `if_icmplt` jumps past it to the return at label 2; no field is written. */
  lemma CheckRangeShape(cls: string)
    ensures var r := CheckRangeBody(cls); |r.code| == 13 && r.maxStack == 2 && r.maxLocals == 2
    ensures var r := CheckRangeBody(cls); r.code[1] == IfLt(1) && r.code[6] == PlaceSame(1) && r.code[10] == AThrow
    ensures var r := CheckRangeBody(cls); r.code[5] == IfICmpLt(2) && r.code[11] == PlaceSame(2) && r.code[12] == Return
    ensures var r := CheckRangeBody(cls); forall i :: 0 <= i < |r.code| ==> !r.code[i].PutField?
  {
  }

  /** `ensureCapacity`: `if_icmpge` skips to the return at label 1; otherwise local 2 holds the new length, and `data` is the only field written, once, with the copy. */
  lemma EnsureCapacityShape(cls: string, k: PrimKind)
    ensures var r := EnsureCapacityBody(cls, k); |r.code| == 21 && r.maxStack == 3 && r.maxLocals == 3
    ensures var r := EnsureCapacityBody(cls, k); r.code[4] == IfICmpGe(1) && r.code[19] == PlaceSame(1) && r.code[20] == Return
    ensures var r := EnsureCapacityBody(cls, k); r.code[12] == IStore(2) && r.code[17] == Invoke(Static, CopyOf(k))
    ensures var r := EnsureCapacityBody(cls, k); forall i :: 0 <= i < |r.code| && r.code[i].PutField? ==> i == 18 && r.code[i] == PutField(cls, Data)
  {
  }

  /** The corrected `add`: the unbox and the store come before the one field write, the `size` update. */
  lemma AddCorrectedShape(cls: string, k: PrimKind)
    ensures var r := AddBodyCorrected(cls, k); |r.code| == 21 && r.maxStack == 4 && r.maxLocals == 2
    ensures var r := AddBodyCorrected(cls, k); r.code[5] == Invoke(Special, EnsureCapacity(cls)) && r.code[20] == Return
    ensures var r := AddBodyCorrected(cls, k); r.code[12] == Invoke(Virtual, Unbox(k)) && r.code[13] == ArrayStore(k)
    ensures var r := AddBodyCorrected(cls, k); forall i :: 0 <= i < |r.code| && r.code[i].PutField? ==> i == 19 && r.code[i] == PutField(cls, Size)
  {
  }
}
