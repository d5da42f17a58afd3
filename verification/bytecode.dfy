/**
 * Abstract JVM instructions, as far as the list generator emits them.
 *
 * Raw opcode numbers and the class-file encoding are not modelled: every
 * instruction is named by what it does, and each carries its operand-stack
 * effect counted in slots, where `long` and `double` values take two slots
 * (Java Virtual Machine Specification, Java SE 8, section 2.11.1) and all
 * other values one.
 */
module Bytecode {

  import opened Common

  /** The primitive kinds a specialised list can be generated for (JVMS section 2.3). */
  datatype PrimKind = Boolean | Byte | Char | Short | Int | Float | Long | Double

  /** Stack and local-variable slots taken by a value of kind `k`. */
  function Slots(k: PrimKind): (n: nat)
    ensures n == 1 || n == 2
    ensures n == 2 <==> k == Long || k == Double
  {
    if k == Long || k == Double then 2 else 1
  }

  /** The field-descriptor letter of a primitive kind (JVMS section 4.3.2). */
  function DescriptorChar(k: PrimKind): char
  {
    match k
    case Boolean => 'Z'
    case Byte => 'B'
    case Char => 'C'
    case Short => 'S'
    case Int => 'I'
    case Float => 'F'
    case Long => 'J'
    case Double => 'D'
  }

  /** Reads a primitive kind back from its descriptor letter. */
  function KindOfDescriptor(c: char): (r: Option<PrimKind>)
    ensures r.Some? ==> DescriptorChar(r.value) == c
  {
    match c
    case 'Z' => Some(Boolean)
    case 'B' => Some(Byte)
    case 'C' => Some(Char)
    case 'S' => Some(Short)
    case 'I' => Some(Int)
    case 'F' => Some(Float)
    case 'J' => Some(Long)
    case 'D' => Some(Double)
    case _ => None
  }

  /** The two instance fields of a generated list. */
  datatype Field = Data | Size

  /** Classes named by `new` and `checkcast`. */
  datatype ClassRef = BoundsException | Wrapper(kind: PrimKind)

  /** How a method is invoked: `invokespecial` and `invokevirtual` take a receiver, `invokestatic` does not. */
  datatype InvokeKind = Special | Virtual | Static

  /** Every method the emitted code calls. */
  datatype Callee =
    | ObjectInit                // java/lang/Object.<init>()V
    | ExceptionInit             // java/lang/IndexOutOfBoundsException.<init>()V
    | EnsureCapacity(owner: string)  // the generated class's own ensureCapacity(I)V
    | CheckRange(owner: string)      // the generated class's own checkRange(I)V
    | Unbox(kind: PrimKind)     // the wrapper's intValue(), longValue(), ...
    | ValueOf(kind: PrimKind)   // the wrapper's static valueOf
    | MathMax                   // java/lang/Math.max(II)I
    | CopyOf(kind: PrimKind)    // java/util/Arrays.copyOf for the primitive array type

  type Label = nat

  datatype Insn =
    | ALoad(slot: nat)
    | ILoad(slot: nat)
    | IStore(slot: nat)
    | BiPush(byte: int)
    | IConst(small: int)
    | IAdd
    | IMul
    | Dup
    | DupX1
    | GetField(owner: string, field: Field)
    | PutField(owner: string, field: Field)
    | NewArray(kind: PrimKind)
    | ArrayLength
    | ArrayStore(kind: PrimKind)
    | ArrayLoad(kind: PrimKind)
    | New(cls: ClassRef)
    | CheckCast(cls: ClassRef)
    | Invoke(how: InvokeKind, callee: Callee)
    | IfLt(target: Label)
    | IfICmpGe(target: Label)
    | IfICmpLt(target: Label)
    | PlaceSame(mark: Label)    // a label immediately followed by an F_SAME stack-map frame
    | AThrow
    | Return
    | IReturn
    | AReturn

  /** A method body with the values its `visitMaxs` call declares. */
  datatype Body = Body(code: seq<Insn>, maxStack: nat, maxLocals: nat)

  /** Slots taken by the arguments of a callee, receiver excluded. */
  function ArgSlots(c: Callee): nat
  {
    match c
    case ObjectInit => 0
    case ExceptionInit => 0
    case EnsureCapacity(_) => 1
    case CheckRange(_) => 1
    case Unbox(_) => 0
    case ValueOf(k) => Slots(k)
    case MathMax => 2
    case CopyOf(_) => 2
  }

  /** Slots taken by a callee's return value. */
  function RetSlots(c: Callee): nat
  {
    match c
    case Unbox(k) => Slots(k)
    case ValueOf(_) => 1
    case MathMax => 1
    case CopyOf(_) => 1
    case _ => 0
  }

  /** Slots an instruction pops (JVMS chapter 6). */
  function Pops(ins: Insn): nat
  {
    match ins
    case ALoad(_) => 0
    case ILoad(_) => 0
    case IStore(_) => 1
    case BiPush(_) => 0
    case IConst(_) => 0
    case IAdd => 2
    case IMul => 2
    case Dup => 1
    case DupX1 => 2
    case GetField(_, _) => 1
    case PutField(_, _) => 2
    case NewArray(_) => 1
    case ArrayLength => 1
    case ArrayStore(k) => 2 + Slots(k)
    case ArrayLoad(_) => 2
    case New(_) => 0
    case CheckCast(_) => 1
    case Invoke(how, c) => (if how == Static then 0 else 1) + ArgSlots(c)
    case IfLt(_) => 1
    case IfICmpGe(_) => 2
    case IfICmpLt(_) => 2
    case PlaceSame(_) => 0
    case AThrow => 1
    case Return => 0
    case IReturn => 1
    case AReturn => 1
  }

  /** Slots an instruction pushes (JVMS chapter 6). */
  function Pushes(ins: Insn): nat
  {
    match ins
    case ALoad(_) => 1
    case ILoad(_) => 1
    case BiPush(_) => 1
    case IConst(_) => 1
    case IAdd => 1
    case IMul => 1
    case Dup => 2
    case DupX1 => 3
    case GetField(_, _) => 1
    case NewArray(_) => 1
    case ArrayLength => 1
    case ArrayLoad(k) => Slots(k)
    case New(_) => 1
    case CheckCast(_) => 1
    case Invoke(_, c) => RetSlots(c)
    case _ => 0
  }

  /** True of the conditional jumps. */
  predicate IsJump(ins: Insn)
  {
    ins.IfLt? || ins.IfICmpGe? || ins.IfICmpLt?
  }

  /** True of instructions after which control never reaches the next one. */
  predicate EndsBlock(ins: Insn)
  {
    ins.AThrow? || ins.Return? || ins.IReturn? || ins.AReturn?
  }

  /** The local-variable slots an instruction reads or writes must exist. */
  predicate LocalsFit(ins: Insn, maxLocals: nat)
  {
    match ins
    case ALoad(n) => n < maxLocals
    case ILoad(n) => n < maxLocals
    case IStore(n) => n < maxLocals
    case _ => true
  }

  /** The index of the first placement of label `l` in `code`, if any. */
  function LabelIndex(code: seq<Insn>, l: Label): (r: Option<nat>)
    ensures r.Some? ==> r.value < |code| && code[r.value] == PlaceSame(l)
    ensures r.Some? ==> forall j :: 0 <= j < r.value ==> code[j] != PlaceSame(l)
    ensures r.None? ==> forall j :: 0 <= j < |code| ==> code[j] != PlaceSame(l)
  {
    if |code| == 0 then None
    else if code[0] == PlaceSame(l) then Some(0)
    else match LabelIndex(code[1..], l)
      case None => None
      case Some(i) => Some(i + 1)
  }
}
