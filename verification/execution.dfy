/**
 * A small JVM that runs the emitted method bodies of one generated list
 * object, instruction by instruction (Java Virtual Machine Specification,
 * Java SE 8, chapter 6).
 *
 * The heap holds the one list object, whose fields are `data` and `size`,
 * and every array allocated so far, indexed by allocation order; an array
 * reference is the index of its array. Values are not counted in slots here:
 * a `long` or `double` is one value on the stack. The class's own private
 * methods are run from their emitted bodies, one frame deeper; the library
 * methods the bodies call (`Object.<init>`, the exception's constructor,
 * unboxing, `valueOf`, `Math.max`, `Arrays.copyOf`) are given by what they
 * do. A state the JVM's verifier would reject (a wrong type on the stack, a
 * missing local, a field of another class) is `Stuck`; the emitted bodies
 * never get stuck.
 */
module Execution {

  import opened Common
  import opened Bytecode
  import opened Generator

  /** The values on the operand stack and in local variables. */
  datatype Value<P> =
    | IntV(n: int32)   // an int
    | PrimV(p: P)      // a value of the list's primitive kind
    | ThisV            // the reference to the list object
    | NullV            // null
    | ArrV(id: nat)    // a reference to the array allocated `id`-th
    | BoxV(p: P)       // a reference to the wrapper object holding `p`
    | ExcV             // a reference to an IndexOutOfBoundsException

  /** The list object's fields and all arrays allocated so far. */
  datatype Heap<P> = Heap(arrays: seq<seq<P>>, data: Value<P>, size: int32)

  /** A method activation: the next instruction, the operand stack (top last) and the locals. */
  datatype Frame<P> = Frame(pc: nat, stack: seq<Value<P>>, locals: map<nat, Value<P>>)

  /** How a method invocation ends. */
  datatype Outcome<P> =
    | Returned(heap: Heap<P>, result: Option<Value<P>>)
    | Threw(heap: Heap<P>, error: JavaError)
    | Stuck

  /** The generated class: its internal name, its primitive kind and that kind's default value. */
  datatype Ctx<P> = Ctx(cls: string, kind: PrimKind, zero: P)

  /** The effect of one instruction: the next frame and heap, or the end of the method. */
  datatype Next<P> = Continue(frame: Frame<P>, heap: Heap<P>) | Stop(outcome: Outcome<P>)

  /** The argument handed to `add`: a boxed element or null. */
  function RefValue<P>(e: Ref<P>): Value<P>
  {
    match e
    case Null => NullV
    case Obj(v) => BoxV(v)
  }

  /** A new array of `len` default values, as `newarray` allocates it. */
  function Filled<P>(len: nat, zero: P): (r: seq<P>)
    ensures |r| == len && forall i :: 0 <= i < len ==> r[i] == zero
  {
    seq(len, _ => zero)
  }

  /** `Arrays.copyOf(a, len)`: the first `len` values of `a`, padded with the default value. */
  function Copied<P>(a: seq<P>, len: nat, zero: P): (r: seq<P>)
  {
    seq(len, i requires 0 <= i < len => if i < |a| then a[i] else zero)
  }

  /** The locals of a method called on `this` with one argument. */
  function Args<P>(arg: Value<P>): map<nat, Value<P>>
  {
    map[0 := ThisV, 1 := arg]
  }

  /** Pops `n` values, pushes `vs` and moves on to the next instruction. */
  function Go<P>(fr: Frame<P>, n: nat, vs: seq<Value<P>>, h: Heap<P>): Next<P>
    requires n <= |fr.stack|
  {
    Continue(Frame(fr.pc + 1, fr.stack[..|fr.stack| - n] + vs, fr.locals), h)
  }

  /** Pops `n` values and goes to the label `l`, which must be placed in `code`. */
  function Jump<P>(code: seq<Insn>, fr: Frame<P>, n: nat, l: Label, h: Heap<P>): Next<P>
    requires n <= |fr.stack|
  {
    match LabelIndex(code, l)
    case None => Stop(Stuck)
    case Some(j) => Continue(Frame(j, fr.stack[..|fr.stack| - n], fr.locals), h)
  }

  /** The private methods of the generated class, both taking one `int` and returning nothing. */
  function OwnBody<P>(ctx: Ctx<P>, c: Callee): Option<Body>
  {
    match c
    case EnsureCapacity(owner) => if owner == ctx.cls then Some(EnsureCapacityBody(ctx.cls, ctx.kind)) else None
    case CheckRange(owner) => if owner == ctx.cls then Some(CheckRangeBody(ctx.cls)) else None
    case _ => None
  }

  /** A call of a library method, with the receiver (if any) and arguments on top of the stack. */
  function Library<P>(ctx: Ctx<P>, how: InvokeKind, c: Callee, fr: Frame<P>, h: Heap<P>): Next<P>
  {
    var st, n := fr.stack, |fr.stack|;
    match c
    case ObjectInit =>
      if how == Special && n >= 1 && st[n - 1] == ThisV then Go(fr, 1, [], h) else Stop(Stuck)
    case ExceptionInit =>
      if how == Special && n >= 1 && st[n - 1] == ExcV then Go(fr, 1, [], h) else Stop(Stuck)
    case Unbox(k) =>
      if how != Virtual || k != ctx.kind || n < 1 then Stop(Stuck)
      else if st[n - 1].BoxV? then Go(fr, 1, [PrimV(st[n - 1].p)], h)
      else if st[n - 1] == NullV then Stop(Threw(h, NullPointer))
      else Stop(Stuck)
    case ValueOf(k) =>
      if how == Static && k == ctx.kind && n >= 1 && st[n - 1].PrimV? then Go(fr, 1, [BoxV(st[n - 1].p)], h)
      else Stop(Stuck)
    case MathMax =>
      if how == Static && n >= 2 && st[n - 2].IntV? && st[n - 1].IntV? then
        Go(fr, 2, [IntV(Max(st[n - 2].n, st[n - 1].n))], h)
      else Stop(Stuck)
    case CopyOf(k) =>
      if how != Static || k != ctx.kind || n < 2 || !st[n - 1].IntV? then Stop(Stuck)
      else if st[n - 2] == NullV then Stop(Threw(h, NullPointer))
      else if !st[n - 2].ArrV? || st[n - 2].id >= |h.arrays| then Stop(Stuck)
      else
        var a, len := h.arrays[st[n - 2].id], st[n - 1].n;
        if len < 0 then Stop(Threw(h, NegativeArraySize))
        else
          Go(fr, 2, [ArrV(|h.arrays|)], h.(arrays := h.arrays + [Copied(a, len as nat, ctx.zero)]))
    case _ => Stop(Stuck)
  }

  /** Runs instruction `code[fr.pc]`, other than a call of the class's own methods. */
  function Step<P>(ctx: Ctx<P>, code: seq<Insn>, maxLocals: nat, fr: Frame<P>, h: Heap<P>): Next<P>
    requires fr.pc < |code|
  {
    var st, n := fr.stack, |fr.stack|;
    match code[fr.pc]
    case ALoad(i) =>
      if i in fr.locals && !fr.locals[i].IntV? && !fr.locals[i].PrimV? then Go(fr, 0, [fr.locals[i]], h) else Stop(Stuck)
    case ILoad(i) =>
      if i in fr.locals && fr.locals[i].IntV? then Go(fr, 0, [fr.locals[i]], h) else Stop(Stuck)
    case IStore(i) =>
      if i < maxLocals && n >= 1 && st[n - 1].IntV? then
        Continue(Frame(fr.pc + 1, st[..n - 1], fr.locals[i := st[n - 1]]), h)
      else Stop(Stuck)
    case BiPush(v) =>
      if -128 <= v <= 127 then Go(fr, 0, [IntV(v as int32)], h) else Stop(Stuck)
    case IConst(v) =>
      if -1 <= v <= 5 then Go(fr, 0, [IntV(v as int32)], h) else Stop(Stuck)
    case IAdd =>
      if n >= 2 && st[n - 2].IntV? && st[n - 1].IntV? then
        Go(fr, 2, [IntV(Wrap(st[n - 2].n as int + st[n - 1].n as int))], h)
      else Stop(Stuck)
    case IMul =>
      if n >= 2 && st[n - 2].IntV? && st[n - 1].IntV? then
        Go(fr, 2, [IntV(Wrap(st[n - 2].n as int * st[n - 1].n as int))], h)
      else Stop(Stuck)
    case Dup =>
      if n >= 1 then Go(fr, 1, [st[n - 1], st[n - 1]], h) else Stop(Stuck)
    case DupX1 =>
      if n >= 2 then Go(fr, 2, [st[n - 1], st[n - 2], st[n - 1]], h) else Stop(Stuck)
    case GetField(owner, f) =>
      if owner == ctx.cls && n >= 1 && st[n - 1] == ThisV then
        Go(fr, 1, [if f == Data then h.data else IntV(h.size)], h)
      else Stop(Stuck)
    case PutField(owner, f) =>
      if owner != ctx.cls || n < 2 || st[n - 2] != ThisV then Stop(Stuck)
      else if f == Data && (st[n - 1].ArrV? || st[n - 1] == NullV) then Go(fr, 2, [], h.(data := st[n - 1]))
      else if f == Size && st[n - 1].IntV? then Go(fr, 2, [], h.(size := st[n - 1].n))
      else Stop(Stuck)
    case NewArray(k) =>
      if k != ctx.kind || n < 1 || !st[n - 1].IntV? then Stop(Stuck)
      else if st[n - 1].n < 0 then Stop(Threw(h, NegativeArraySize))
      else Go(fr, 1, [ArrV(|h.arrays|)], h.(arrays := h.arrays + [Filled(st[n - 1].n as nat, ctx.zero)]))
    case ArrayLength =>
      if n < 1 then Stop(Stuck)
      else if st[n - 1] == NullV then Stop(Threw(h, NullPointer))
      else if st[n - 1].ArrV? && st[n - 1].id < |h.arrays| && |h.arrays[st[n - 1].id]| <= MAX_INT then
        Go(fr, 1, [IntV(|h.arrays[st[n - 1].id]| as int32)], h)
      else Stop(Stuck)
    case ArrayStore(k) =>
      if k != ctx.kind || n < 3 || !st[n - 2].IntV? || !st[n - 1].PrimV? then Stop(Stuck)
      else if st[n - 3] == NullV then Stop(Threw(h, NullPointer))
      else if !st[n - 3].ArrV? || st[n - 3].id >= |h.arrays| then Stop(Stuck)
      else
        var id, i := st[n - 3].id, st[n - 2].n as int;
        if 0 <= i < |h.arrays[id]| then
          Go(fr, 3, [], h.(arrays := h.arrays[id := h.arrays[id][i := st[n - 1].p]]))
        else Stop(Threw(h, ArrayIndexOutOfBounds))
    case ArrayLoad(k) =>
      if k != ctx.kind || n < 2 || !st[n - 1].IntV? then Stop(Stuck)
      else if st[n - 2] == NullV then Stop(Threw(h, NullPointer))
      else if !st[n - 2].ArrV? || st[n - 2].id >= |h.arrays| then Stop(Stuck)
      else
        var id, i := st[n - 2].id, st[n - 1].n as int;
        if 0 <= i < |h.arrays[id]| then Go(fr, 2, [PrimV(h.arrays[id][i])], h)
        else Stop(Threw(h, ArrayIndexOutOfBounds))
    case New(c) =>
      if c == BoundsException then Go(fr, 0, [ExcV], h) else Stop(Stuck)
    case CheckCast(c) =>
      if c != Wrapper(ctx.kind) || n < 1 then Stop(Stuck)
      else if st[n - 1].BoxV? || st[n - 1] == NullV then Go(fr, 1, [st[n - 1]], h)
      else Stop(Threw(h, ClassCast))
    case Invoke(how, c) =>
      Library(ctx, how, c, fr, h)
    case IfLt(l) =>
      if n >= 1 && st[n - 1].IntV? then
        if st[n - 1].n < 0 then Jump(code, fr, 1, l, h) else Go(fr, 1, [], h)
      else Stop(Stuck)
    case IfICmpGe(l) =>
      if n >= 2 && st[n - 2].IntV? && st[n - 1].IntV? then
        if st[n - 2].n >= st[n - 1].n then Jump(code, fr, 2, l, h) else Go(fr, 2, [], h)
      else Stop(Stuck)
    case IfICmpLt(l) =>
      if n >= 2 && st[n - 2].IntV? && st[n - 1].IntV? then
        if st[n - 2].n < st[n - 1].n then Jump(code, fr, 2, l, h) else Go(fr, 2, [], h)
      else Stop(Stuck)
    case PlaceSame(_) =>
      Go(fr, 0, [], h)
    case AThrow =>
      if n >= 1 && st[n - 1] == ExcV then Stop(Threw(h, IndexOutOfBounds))
      else if n >= 1 && st[n - 1] == NullV then Stop(Threw(h, NullPointer))
      else Stop(Stuck)
    case Return =>
      Stop(Returned(h, None))
    case IReturn =>
      if n >= 1 && st[n - 1].IntV? then Stop(Returned(h, Some(st[n - 1]))) else Stop(Stuck)
    case AReturn =>
      if n >= 1 && !st[n - 1].IntV? && !st[n - 1].PrimV? then Stop(Returned(h, Some(st[n - 1]))) else Stop(Stuck)
  }

  /**
   * Runs body `b` from frame `fr` until it returns or throws. A call of one
   * of the class's own methods runs that method's body with `this` and the
   * argument as its locals, one level deeper; at depth 0 there is no room
   * for another frame. Control only moves forward in the emitted bodies; a
   * backward jump is not modelled and gets stuck.
   */
  function Run<P>(ctx: Ctx<P>, b: Body, fr: Frame<P>, h: Heap<P>, depth: nat): Outcome<P>
    decreases depth, |b.code| - fr.pc
  {
    if fr.pc >= |b.code| then Stuck
    else
      var ins, n := b.code[fr.pc], |fr.stack|;
      if ins.Invoke? && OwnBody(ctx, ins.callee).Some? then
        if ins.how != Special || n < 2 || fr.stack[n - 2] != ThisV then Stuck
        else if depth == 0 then Threw(h, StackOverflow)
        else
          var callee := Entry(Args(fr.stack[n - 1]));
          match Run(ctx, OwnBody(ctx, ins.callee).value, callee, h, depth - 1)
          case Returned(h', _) => Run(ctx, b, Frame(fr.pc + 1, fr.stack[..n - 2], fr.locals), h', depth)
          case Threw(h', e) => Threw(h', e)
          case Stuck => Stuck
      else
        match Step(ctx, b.code, b.maxLocals, fr, h)
        case Stop(o) => o
        case Continue(fr', h') => if fr'.pc <= fr.pc then Stuck else Run(ctx, b, fr', h', depth)
  }

  /** One instruction other than a call of the class's own methods, moving control forward. */
  lemma RunStep<P>(ctx: Ctx<P>, b: Body, fr: Frame<P>, h: Heap<P>, depth: nat, fr': Frame<P>, h': Heap<P>)
    requires fr.pc < |b.code| && !(b.code[fr.pc].Invoke? && OwnBody(ctx, b.code[fr.pc].callee).Some?)
    requires Step(ctx, b.code, b.maxLocals, fr, h) == Continue(fr', h') && fr.pc < fr'.pc
    ensures Run(ctx, b, fr, h, depth) == Run(ctx, b, fr', h', depth)
  {
  }

  /** The last instruction run: it returns or throws. */
  lemma RunStop<P>(ctx: Ctx<P>, b: Body, fr: Frame<P>, h: Heap<P>, depth: nat, o: Outcome<P>)
    requires fr.pc < |b.code| && !(b.code[fr.pc].Invoke? && OwnBody(ctx, b.code[fr.pc].callee).Some?)
    requires Step(ctx, b.code, b.maxLocals, fr, h) == Stop(o)
    ensures Run(ctx, b, fr, h, depth) == o
  {
  }

  /** A call of one of the class's own methods on `this`, with the argument on top of the stack. */
  lemma RunCall<P>(ctx: Ctx<P>, b: Body, fr: Frame<P>, h: Heap<P>, depth: nat, callee: Body, o: Outcome<P>)
    requires fr.pc < |b.code| && b.code[fr.pc].Invoke? && b.code[fr.pc].how == Special
    requires OwnBody(ctx, b.code[fr.pc].callee) == Some(callee)
    requires |fr.stack| >= 2 && fr.stack[|fr.stack| - 2] == ThisV && depth > 0
    requires o == Run(ctx, callee, Entry(Args(fr.stack[|fr.stack| - 1])), h, depth - 1)
    ensures o.Returned? ==>
      Run(ctx, b, fr, h, depth) == Run(ctx, b, Frame(fr.pc + 1, fr.stack[..|fr.stack| - 2], fr.locals), o.heap, depth)
    ensures !o.Returned? ==> Run(ctx, b, fr, h, depth) == o
  {
  }

  /** The frame a method starts in: an empty stack and the given locals. */
  function Entry<P>(locals: map<nat, Value<P>>): Frame<P>
  {
    Frame(0, [], locals)
  }

  /**
   * The heap holds a well-formed list of `elems`: `data` refers to an array
   * of at most 2^31 - 1 slots whose first `size` slots hold `elems` and
   * whose other slots hold the default value.
   */
  ghost predicate Holds<P>(ctx: Ctx<P>, h: Heap<P>, elems: seq<P>)
  {
    h.data.ArrV? && h.data.id < |h.arrays| &&
    var a := h.arrays[h.data.id];
    |a| <= MAX_INT && h.size as int == |elems| && |elems| <= |a| &&
    a[..|elems|] == elems &&
    forall i :: |elems| <= i < |a| ==> a[i] == ctx.zero
  }

  /** The array `data` refers to in a heap that holds a list. */
  function DataArray<P>(h: Heap<P>): seq<P>
    requires h.data.ArrV? && h.data.id < |h.arrays|
  {
    h.arrays[h.data.id]
  }
}
