/**
 * Operand-stack bookkeeping of a method body, in the manner of the JVM's
 * type-checking verifier (JVMS section 4.10.1), restricted to stack depth and
 * local-slot indices:
 *  - no instruction pops more slots than the stack holds;
 *  - the depth never exceeds the declared `max_stack`, and every local
 *    slot used is below the declared `max_locals` (JVMS section 4.7.3);
 *  - an F_SAME frame (JVMS section 4.7.4) declares an empty stack, so the
 *    stack must be empty on every edge into a label that carries one;
 *  - control never falls off the end of the code, and an instruction that
 *    follows a return or throw must carry a frame.
 */
module StackCheck {

  import opened Common
  import opened Bytecode

  /** Depth in slots on fall-through into an instruction; None when control cannot fall into it. */
  type Depth = Option<nat>

  /** Checks one instruction entered with fall-through depth `d`; None rejects, Some gives the depth on fall-through out. */
  function After(b: Body, pc: nat, d: Depth): Option<Depth>
    requires pc < |b.code|
  {
    var ins := b.code[pc];
    if ins.PlaceSame? then
      if d.None? || d == Some(0) then Some(Some(0)) else None
    else if d.None? || Pops(ins) > d.value then None
    else
      var mid := d.value - Pops(ins);
      var out := mid + Pushes(ins);
      if out > b.maxStack || !LocalsFit(ins, b.maxLocals) then None
      else if IsJump(ins) && (mid != 0 || PlaceSame(ins.target) !in b.code) then None
      else if EndsBlock(ins) then Some(None)
      else Some(Some(out))
  }

  /** The depths from `pc` to the end of the code, if every instruction from `pc` on is accepted. */
  function TraceFrom(b: Body, pc: nat, d: Depth): (r: Option<seq<Depth>>)
    requires pc <= |b.code|
    ensures r.Some? ==> |r.value| == |b.code| - pc + 1 && r.value[0] == d
    ensures r.Some? ==> r.value[|b.code| - pc] == None
    decreases |b.code| - pc
  {
    if pc == |b.code| then
      if d.None? then Some([d]) else None
    else
      match After(b, pc, d)
      case None => None
      case Some(d') =>
        match TraceFrom(b, pc + 1, d')
        case None => None
        case Some(t) => Some([d] + t)
  }

  /** Each recorded depth is what the checker computed from the one before it. */
  lemma {:induction false} TraceFromSteps(b: Body, pc: nat, d: Depth, i: nat)
    requires pc <= |b.code| && TraceFrom(b, pc, d).Some?
    requires pc <= i < |b.code|
    ensures var t := TraceFrom(b, pc, d).value; After(b, i, t[i - pc]) == Some(t[i - pc + 1])
    decreases |b.code| - pc
  {
    var d' := After(b, pc, d).value;
    if i > pc {
      TraceFromSteps(b, pc + 1, d', i);
    }
  }

  /**
   * A certificate of depths, one per instruction and one past the end, that
   * the checker reproduces step by step is the trace it computes.
   */
  lemma {:induction false} CertifiedTrace(b: Body, pc: nat, D: seq<Depth>)
    requires pc <= |b.code| && |D| == |b.code| + 1 && D[|b.code|].None?
    requires forall i :: pc <= i < |b.code| ==> After(b, i, D[i]) == Some(D[i + 1])
    ensures TraceFrom(b, pc, D[pc]) == Some(D[pc..])
    decreases |b.code| - pc
  {
    if pc < |b.code| {
      CertifiedTrace(b, pc + 1, D);
      assert After(b, pc, D[pc]) == Some(D[pc + 1]);
      assert D[pc..] == [D[pc]] + D[pc + 1..];
    } else {
      assert D[pc..] == [D[pc]];
    }
  }

  /** The checker: the body is accepted when every instruction is, starting from an empty stack. */
  function Trace(b: Body): Option<seq<Depth>>
  {
    TraceFrom(b, 0, Some(0))
  }

  // ---------------------------------------------------------------------
  // Control-flow paths: the meaning of the check

  /** Control can pass from instruction `i` to `j`: by falling through, or by a jump to the label placed at `j`. */
  ghost predicate Edge(b: Body, i: nat, j: nat)
  {
    i < |b.code| &&
    ((!EndsBlock(b.code[i]) && j == i + 1) ||
     (IsJump(b.code[i]) && LabelIndex(b.code, b.code[i].target) == Some(j)))
  }

  /** A path of control from the method's entry. */
  ghost predicate IsPath(b: Body, p: seq<nat>)
  {
    |p| > 0 && p[0] == 0 && forall j :: 0 <= j < |p| - 1 ==> Edge(b, p[j], p[j + 1])
  }

  /** The stack depth on arrival at the last instruction of `p`, adding up each earlier instruction's net effect. */
  ghost function DepthAlong(code: seq<Insn>, p: seq<nat>): int
    decreases |p|
  {
    if |p| <= 1 then 0
    else
      var i := p[|p| - 2];
      DepthAlong(code, p[..|p| - 1]) + (if i < |code| then Pushes(code[i]) - Pops(code[i]) else 0)
  }

  /** What the checker records at instruction `i` when the real depth there is `dep`. */
  ghost predicate Recorded(b: Body, i: nat, dep: int)
    requires Trace(b).Some? && i <= |b.code|
  {
    var D := Trace(b).value;
    (dep >= 0 && D[i] == Some(dep as nat)) ||
    (D[i].None? && i < |b.code| && b.code[i].PlaceSame? && dep == 0)
  }

  /** Along a path of an accepted body, the fall-through depth recorded by the checker is the real depth. */
  lemma {:induction false} TraceFollowsPath(b: Body, p: seq<nat>)
    requires Trace(b).Some?
    requires IsPath(b, p)
    ensures p[|p| - 1] < |b.code|
    ensures Recorded(b, p[|p| - 1], DepthAlong(b.code, p))
    ensures 0 <= DepthAlong(b.code, p) <= b.maxStack
    decreases |p|
  {
    if |p| == 1 {
      assert Trace(b).value[0] == Some(0);
      TraceFromSteps(b, 0, Some(0), 0);
      AfterAccepts(b, 0, Some(0), Trace(b).value[1]);
    } else {
      var q := p[..|p| - 1];
      assert IsPath(b, q) by {
        forall j | 0 <= j < |q| - 1 ensures Edge(b, q[j], q[j + 1]) {
          assert q[j] == p[j] && q[j + 1] == p[j + 1];
        }
      }
      TraceFollowsPath(b, q);
      var i, j := q[|q| - 1], p[|p| - 1];
      assert i == p[|p| - 2] && Edge(b, i, j);
      assert DepthAlong(b.code, p) == DepthAlong(b.code, q) + Pushes(b.code[i]) - Pops(b.code[i]);
      RecordedAcrossEdge(b, i, j, DepthAlong(b.code, q));
    }
  }

  /** One edge of control flow keeps the recorded depth equal to the real one, within `max_stack`. */
  lemma RecordedAcrossEdge(b: Body, i: nat, j: nat, dep: int)
    requires Trace(b).Some? && Edge(b, i, j) && Recorded(b, i, dep)
    ensures j < |b.code|
    ensures var ins := b.code[i]; Recorded(b, j, dep + Pushes(ins) - Pops(ins))
    ensures var ins := b.code[i]; 0 <= dep + Pushes(ins) - Pops(ins) <= b.maxStack
  {
    var D := Trace(b).value;
    var ins := b.code[i];
    TraceFromSteps(b, 0, Some(0), i);
    AfterAccepts(b, i, D[i], D[i + 1]);
    if EndsBlock(ins) || j != i + 1 {
      assert LabelIndex(b.code, ins.target) == Some(j);
      TraceFromSteps(b, 0, Some(0), j);
      AfterAccepts(b, j, D[j], D[j + 1]);
    }
  }

  /** What the checker demands of one accepted instruction. */
  lemma AfterAccepts(b: Body, pc: nat, d: Depth, d': Depth)
    requires pc < |b.code| && After(b, pc, d) == Some(d')
    ensures var ins := b.code[pc];
      if ins.PlaceSame? then (d.None? || d == Some(0)) && d' == Some(0)
      else
        d.Some? && Pops(ins) <= d.value && d.value - Pops(ins) + Pushes(ins) <= b.maxStack &&
        LocalsFit(ins, b.maxLocals) &&
        (IsJump(ins) ==> d.value == Pops(ins) && PlaceSame(ins.target) in b.code) &&
        d' == (if EndsBlock(ins) then None else Some(d.value - Pops(ins) + Pushes(ins)))
  {
  }

  /**
   * The guarantee of an accepted body, for every instruction reached along
   * any path: the depth is never negative, not even after the pops; it stays
   * within `max_stack`; the locals used are within `max_locals`; the stack is
   * empty at every F_SAME label and on every jump into one.
   */
  lemma StackDisciplineOnPaths(b: Body, p: seq<nat>)
    requires Trace(b).Some?
    requires IsPath(b, p)
    ensures var last := p[|p| - 1];
      last < |b.code| &&
      var ins, d := b.code[last], DepthAlong(b.code, p);
      0 <= Pops(ins) <= d &&
      d <= b.maxStack &&
      d - Pops(ins) + Pushes(ins) <= b.maxStack &&
      LocalsFit(ins, b.maxLocals) &&
      (ins.PlaceSame? ==> d == 0) &&
      (IsJump(ins) ==> d - Pops(ins) == 0)
  {
    TraceFollowsPath(b, p);
    var D, last := Trace(b).value, p[|p| - 1];
    TraceFromSteps(b, 0, Some(0), last);
    AfterAccepts(b, last, D[last], D[last + 1]);
  }
}
