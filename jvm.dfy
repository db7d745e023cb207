/** The part of the Java Virtual Machine that the rewriter emits: the visitor
    events it produces, the operand-stack effects of the instructions among them
    as section 6.5 of the Java Virtual Machine Specification (Java SE 8) defines
    them, and an abstract interpreter that runs emitted code on a stack of
    symbolic values, logging the static calls and array stores it performs. */
module Jvm {
  import opened Common

  // ----- opcodes (chapter 7 of the JVM specification) ---------------------

  const ACONST_NULL := 1
  const SIPUSH := 17
  const ILOAD := 21
  const LLOAD := 22
  const FLOAD := 23
  const DLOAD := 24
  const ALOAD := 25
  const IALOAD := 46
  const LALOAD := 47
  const FALOAD := 48
  const DALOAD := 49
  const AALOAD := 50
  const BALOAD := 51
  const CALOAD := 52
  const SALOAD := 53
  const ISTORE := 54
  const LSTORE := 55
  const FSTORE := 56
  const DSTORE := 57
  const ASTORE := 58
  const IASTORE := 79
  const LASTORE := 80
  const FASTORE := 81
  const DASTORE := 82
  const AASTORE := 83
  const BASTORE := 84
  const CASTORE := 85
  const SASTORE := 86
  const POP := 87
  const POP2 := 88
  const DUP := 89
  const DUP_X1 := 90
  const DUP_X2 := 91
  const DUP2 := 92
  const DUP2_X1 := 93
  const DUP2_X2 := 94
  const SWAP := 95
  const GOTO := 167
  const RET := 169
  const IRETURN := 172
  const LRETURN := 173
  const FRETURN := 174
  const DRETURN := 175
  const ARETURN := 176
  const RETURN := 177
  const GETSTATIC := 178
  const PUTSTATIC := 179
  const GETFIELD := 180
  const PUTFIELD := 181
  const NEWARRAY := 188
  const ANEWARRAY := 189
  const ATHROW := 191

  // `atype` operands of NEWARRAY (section 6.5, "newarray")
  const T_BOOLEAN := 4
  const T_CHAR := 5
  const T_FLOAT := 6
  const T_DOUBLE := 7
  const T_BYTE := 8
  const T_SHORT := 9
  const T_INT := 10
  const T_LONG := 11

  // access flags (section 4.6)
  const ACC_STATIC: bv32 := 0x0008
  const ACC_INTERFACE: bv32 := 0x0200
  const ACC_SYNTHETIC: bv32 := 0x1000

  // ----- visitor events -------------------------------------------------

  type Label = nat

  datatype Const = IntC(i: int) | StrC(s: string)

  /** One call on ASM's `MethodVisitor`, as the rewriter forwards or emits it. */
  datatype Insn =
    // visitInsn with a stack-manipulating or reference-array opcode
    | Pop | Pop2 | Dup | DupX1 | DupX2 | Dup2 | Dup2X1 | Dup2X2 | Swap
    | AconstNull | Aaload | Aastore | Athrow
    | Plain(opcode: int)                       // visitInsn with any other opcode
    | Ldc(c: Const)                            // visitLdcInsn
    | Sipush(operand: int)                     // visitIntInsn(SIPUSH, _)
    | NewArray(atype: int)                     // visitIntInsn(NEWARRAY, _)
    | IntOther(opcode: int, operand: int)      // visitIntInsn, any other opcode
    | Var(opcode: int, slot: nat)              // visitVarInsn
    | Anewarray(typ: string)                   // visitTypeInsn(ANEWARRAY, _)
    | TypeOther(opcode: int, typ: string)      // visitTypeInsn, any other opcode
    | Field(opcode: int, owner: string, name: string, desc: string)
    | InvokeStatic(owner: string, name: string, desc: string, argc: nat)
    | Goto(target: Label)                      // visitJumpInsn(GOTO, _)
    | Mark(at: Label)                          // visitLabel
    | LineNumber(line: int, start: Label)      // visitLineNumber
    | Begin                                    // visitCode
    | Maxs(maxStack: int, maxLocals: int)      // visitMaxs

  /** `visitInsn(opcode)`, under the single name this model gives each event. */
  function InsnOf(opcode: int): (i: Insn)
    ensures i.Plain? ==> i.opcode == opcode
  {
    if opcode == POP then Pop
    else if opcode == POP2 then Pop2
    else if opcode == DUP then Dup
    else if opcode == DUP_X1 then DupX1
    else if opcode == DUP_X2 then DupX2
    else if opcode == DUP2 then Dup2
    else if opcode == DUP2_X1 then Dup2X1
    else if opcode == DUP2_X2 then Dup2X2
    else if opcode == SWAP then Swap
    else if opcode == ACONST_NULL then AconstNull
    else if opcode == AALOAD then Aaload
    else if opcode == AASTORE then Aastore
    else if opcode == ATHROW then Athrow
    else Plain(opcode)
  }

  /** `visitIntInsn(opcode, operand)`. */
  function IntInsnOf(opcode: int, operand: int): Insn {
    if opcode == SIPUSH then Sipush(operand)
    else if opcode == NEWARRAY then NewArray(operand)
    else IntOther(opcode, operand)
  }

  /** `visitTypeInsn(opcode, type)`. */
  function TypeInsnOf(opcode: int, typ: string): Insn {
    if opcode == ANEWARRAY then Anewarray(typ) else TypeOther(opcode, typ)
  }

  // ----- symbolic values ------------------------------------------------

  /** A value on the operand stack, described by where it came from. */
  datatype Value =
    | IntV(n: int)                                   // an int constant
    | StrV(s: string)                                // a String constant
    | NullV                                          // the null reference
    | LocalV(slot: nat)                              // the reference held in a local slot
    | FieldV(holder: Value, owner: string, name: string, desc: string)
    | StaticV(owner: string, name: string, desc: string)
    | ElemV(array: Value, index: Value)              // an element of a reference array
    | PrimArrayV(atype: int, length: Value)          // result of NEWARRAY
    | RefArrayV(elemType: string, length: Value)     // result of ANEWARRAY
    | Operand(id: nat, wide: bool)                   // a value the original code computed

  /** Slots a value of this field descriptor occupies (section 2.6.1): long
      and double take two, everything else one. */
  function DescSize(desc: string): (n: nat)
    ensures n == 1 || n == 2
  {
    if desc == "J" || desc == "D" then 2 else 1
  }

  /** The computational type category of a value (section 2.11.1 of the JVM
      specification). */
  function Size(v: Value): (n: nat)
    ensures n == 1 || n == 2
  {
    match v
    case FieldV(_, _, _, d) => DescSize(d)
    case StaticV(_, _, d) => DescSize(d)
    case Operand(_, w) => if w then 2 else 1
    case _ => 1
  }

  predicate Cat1(v: Value) { Size(v) == 1 }
  predicate Cat2(v: Value) { Size(v) == 2 }

  function ConstValue(c: Const): Value {
    match c
    case IntC(i) => IntV(i)
    case StrC(s) => StrV(s)
  }

  // ----- verification types (section 4.10.1.2) --------------------------

  /** An entry of the frame ASM's `AnalyzerAdapter` computes before each
      instruction: one of the `Opcodes` type constants, a class name (a
      `String`), or the label of an uninitialized `NEW`.  A long or double
      occupies two entries (`Long`/`Double` followed by `Top`). */
  datatype FrameType =
    | Top | Integer | Float | Double | Long | Null | UninitializedThis
    | Uninitialized(newAt: Label)
    | Ref(name: string)

  /** The analyzer's `stack` and `locals`; `None` is `null`, which the
      analyzer reports after an unconditional jump (unreachable code). */
  datatype Frame = Frame(stack: Option<seq<FrameType>>, locals: Option<seq<FrameType>>)

  // ----- the abstract machine -------------------------------------------

  /** An operand stack of symbolic values; `Push(below, top)` has `top` on
      top, so `Push(Push(Bottom, a), b)` is the stack written `.. a, b`. */
  datatype Stack = Bottom | Push(below: Stack, top: Value)

  /** What the emitted code does besides moving values: a static call with
      its arguments, or a store into a reference array. */
  datatype Effect =
    | Call(owner: string, name: string, args: seq<Value>)
    | Store(array: Value, index: Value, value: Value)

  /** The operand stack and the effects performed so far, oldest first. */
  datatype Machine = Machine(stack: Stack, effects: seq<Effect>)

  /** Takes the top `n` values off `s`: what is left, and the values taken
      in the order they were pushed (an `INVOKESTATIC`'s arguments, first
      argument first). */
  function PopN(s: Stack, n: nat): Option<(Stack, seq<Value>)> {
    if n == 0 then Some((s, []))
    else if s.Bottom? then None
    else match PopN(s.below, n - 1)
      case None => None
      case Some((rest, args)) => Some((rest, args + [s.top]))
  }

  /** One instruction; `None` when the stack does not have the shape the
      instruction requires (too few values, or values of the wrong
      category), or for events outside the straight-line subset modelled
      here.  The category-dependent forms follow section 6.5. */
  function Step(i: Insn, m: Machine): Option<Machine> {
    var s := m.stack;
    match i
    case Pop =>
      if s.Push? && Cat1(s.top) then Some(m.(stack := s.below)) else None
    case Pop2 =>
      if s.Push? && Cat2(s.top) then Some(m.(stack := s.below))
      else if s.Push? && s.below.Push? && Cat1(s.top) && Cat1(s.below.top)
      then Some(m.(stack := s.below.below))
      else None
    case Dup =>
      if s.Push? && Cat1(s.top) then Some(m.(stack := Push(s, s.top))) else None
    case DupX1 =>
      if s.Push? && s.below.Push? && Cat1(s.top) && Cat1(s.below.top)
      then Some(m.(stack := Push(Push(Push(s.below.below, s.top), s.below.top), s.top)))
      else None
    case DupX2 =>
      // form 1: .. v3, v2, v1 -> .. v1, v3, v2, v1; form 2: .. v2, v1 -> .. v1, v2, v1
      if s.Push? && s.below.Push? && Cat1(s.top) then
        var v1, v2, r := s.top, s.below.top, s.below.below;
        if Cat2(v2) then Some(m.(stack := Push(Push(Push(r, v1), v2), v1)))
        else if r.Push? && Cat1(r.top)
        then Some(m.(stack := Push(Push(Push(Push(r.below, v1), r.top), v2), v1)))
        else None
      else None
    case Dup2 =>
      if s.Push? && Cat2(s.top) then Some(m.(stack := Push(s, s.top)))
      else if s.Push? && s.below.Push? && Cat1(s.top) && Cat1(s.below.top)
      then Some(m.(stack := Push(Push(s, s.below.top), s.top)))
      else None
    case Dup2X1 =>
      // form 1: .. v3, v2, v1 -> .. v2, v1, v3, v2, v1; form 2: .. v2, v1 -> .. v1, v2, v1
      if s.Push? && s.below.Push? && Cat1(s.below.top) then
        var v1, v2, r := s.top, s.below.top, s.below.below;
        if Cat2(v1) then Some(m.(stack := Push(Push(Push(r, v1), v2), v1)))
        else if r.Push? && Cat1(r.top)
        then Some(m.(stack := Push(Push(Push(Push(Push(r.below, v2), v1), r.top), v2), v1)))
        else None
      else None
    case Dup2X2 =>
      if s.Push? && s.below.Push? then
        var v1, v2, r := s.top, s.below.top, s.below.below;
        if Cat2(v1) && Cat2(v2) then
          // form 4: .. v2, v1 -> .. v1, v2, v1
          Some(m.(stack := Push(Push(Push(r, v1), v2), v1)))
        else if Cat2(v1) && r.Push? && Cat1(r.top) then
          // form 2: .. v3, v2, v1 -> .. v1, v3, v2, v1
          Some(m.(stack := Push(Push(Push(Push(r.below, v1), r.top), v2), v1)))
        else if Cat1(v1) && Cat1(v2) && r.Push? && Cat2(r.top) then
          // form 3: .. v3, v2, v1 -> .. v2, v1, v3, v2, v1
          Some(m.(stack := Push(Push(Push(Push(Push(r.below, v2), v1), r.top), v2), v1)))
        else if Cat1(v1) && Cat1(v2) && r.Push? && Cat1(r.top) && r.below.Push? && Cat1(r.below.top) then
          // form 1: .. v4, v3, v2, v1 -> .. v2, v1, v4, v3, v2, v1
          Some(m.(stack := Push(Push(Push(Push(Push(Push(r.below.below, v2), v1), r.below.top), r.top), v2), v1)))
        else None
      else None
    case Swap =>
      if s.Push? && s.below.Push? && Cat1(s.top) && Cat1(s.below.top)
      then Some(m.(stack := Push(Push(s.below.below, s.top), s.below.top)))
      else None
    case AconstNull => Some(m.(stack := Push(s, NullV)))
    case Ldc(c) => Some(m.(stack := Push(s, ConstValue(c))))
    case Sipush(v) => Some(m.(stack := Push(s, IntV(v))))
    case Var(op, slot) =>
      if op == ALOAD then Some(m.(stack := Push(s, LocalV(slot)))) else None
    case Field(op, owner, name, desc) =>
      if op == GETSTATIC then Some(m.(stack := Push(s, StaticV(owner, name, desc))))
      else if op == GETFIELD && s.Push? && Cat1(s.top)
      then Some(m.(stack := Push(s.below, FieldV(s.top, owner, name, desc))))
      else None
    case Aaload =>
      if s.Push? && s.below.Push? && Cat1(s.top) && Cat1(s.below.top)
      then Some(m.(stack := Push(s.below.below, ElemV(s.below.top, s.top))))
      else None
    case Aastore =>
      if s.Push? && s.below.Push? && s.below.below.Push?
         && Cat1(s.top) && Cat1(s.below.top) && Cat1(s.below.below.top)
      then Some(Machine(s.below.below.below,
                        m.effects + [Store(s.below.below.top, s.below.top, s.top)]))
      else None
    case NewArray(atype) =>
      if s.Push? && Cat1(s.top) then Some(m.(stack := Push(s.below, PrimArrayV(atype, s.top))))
      else None
    case Anewarray(t) =>
      if s.Push? && Cat1(s.top) then Some(m.(stack := Push(s.below, RefArrayV(t, s.top))))
      else None
    case InvokeStatic(owner, name, _, argc) =>
      (match PopN(s, argc)
       case None => None
       case Some((rest, args)) => Some(Machine(rest, m.effects + [Call(owner, name, args)])))
    case _ => None
  }

  /** Runs straight-line code from instruction `k` on. */
  function RunFrom(code: seq<Insn>, k: nat, m: Machine): Option<Machine>
    decreases |code| - k
  {
    if k >= |code| then Some(m)
    else match Step(code[k], m)
      case None => None
      case Some(m') => RunFrom(code, k + 1, m')
  }

  /** Runs straight-line code; `None` if some instruction finds the stack
      in a shape it cannot handle. */
  function Run(code: seq<Insn>, m: Machine): Option<Machine> {
    RunFrom(code, 0, m)
  }

  /** Executes instruction `k` of `code` symbolically: the machine it leaves,
      from which the rest of the run continues.  Proofs about emitted code
      call it once per instruction, like a stack comment per line. */
  lemma StepAt(code: seq<Insn>, k: nat, m: Machine) returns (m': Machine)
    requires k < |code| && Step(code[k], m).Some?
    ensures m' == Step(code[k], m).value
    ensures RunFrom(code, k, m) == RunFrom(code, k + 1, m')
  {
    m' := Step(code[k], m).value;
  }

  lemma {:induction false} RunFromConcat(a: seq<Insn>, b: seq<Insn>, k: nat, m: Machine)
    requires k <= |a|
    ensures RunFrom(a + b, k, m) == (match RunFrom(a, k, m) case None => None case Some(m') => Run(b, m'))
    decreases |a| - k
  {
    if k == |a| {
      RunFromShift(a, b, 0, m);
    } else {
      assert (a + b)[k] == a[k];
      match Step(a[k], m)
      case None =>
      case Some(m') => RunFromConcat(a, b, k + 1, m');
    }
  }

  /** Running the second part of `a + b` is running `b`. */
  lemma {:induction false} RunFromShift(a: seq<Insn>, b: seq<Insn>, k: nat, m: Machine)
    ensures RunFrom(a + b, |a| + k, m) == RunFrom(b, k, m)
    decreases |b| - k
  {
    if k < |b| {
      assert (a + b)[|a| + k] == b[k];
      match Step(b[k], m)
      case None =>
      case Some(m') => RunFromShift(a, b, k + 1, m');
    }
  }

  /** Running `a + b` is running `a`, then `b` on what `a` left. */
  lemma RunConcat(a: seq<Insn>, b: seq<Insn>, m: Machine)
    ensures Run(a + b, m) == (match Run(a, m) case None => None case Some(m') => Run(b, m'))
  {
    RunFromConcat(a, b, 0, m);
  }

  /** Once `a` is known to end in `m1`, `a + b` ends where `b` does from `m1`. */
  lemma RunThen(a: seq<Insn>, b: seq<Insn>, m: Machine, m1: Machine)
    requires Run(a, m) == Some(m1)
    ensures Run(a + b, m) == Run(b, m1)
  {
    RunConcat(a, b, m);
  }

  /** A run that reached the end of the code is complete. */
  lemma RunDone(code: seq<Insn>, m: Machine)
    ensures RunFrom(code, |code|, m) == Some(m)
  {
  }

  // The arguments of calls with n parameters, for the arities the rewriter
  // emits.

  lemma Pops2(s: Stack, a1: Value, a2: Value)
    ensures PopN(Push(Push(s, a1), a2), 2) == Some((s, [a1, a2]))
  {
    assert [] + [a1] == [a1];
    assert PopN(Push(s, a1), 1) == Some((s, [a1]));
    assert [a1] + [a2] == [a1, a2];
  }

  lemma Pops3(s: Stack, a1: Value, a2: Value, a3: Value)
    ensures PopN(Push(Push(Push(s, a1), a2), a3), 3) == Some((s, [a1, a2, a3]))
  {
    Pops2(s, a1, a2);
    assert [a1, a2] + [a3] == [a1, a2, a3];
  }

  lemma Pops4(s: Stack, a1: Value, a2: Value, a3: Value, a4: Value)
    ensures PopN(Push(Push(Push(Push(s, a1), a2), a3), a4), 4) == Some((s, [a1, a2, a3, a4]))
  {
    Pops3(s, a1, a2, a3);
    assert [a1, a2, a3] + [a4] == [a1, a2, a3, a4];
  }

  lemma Pops5(s: Stack, a1: Value, a2: Value, a3: Value, a4: Value, a5: Value)
    ensures PopN(Push(Push(Push(Push(Push(s, a1), a2), a3), a4), a5), 5) == Some((s, [a1, a2, a3, a4, a5]))
  {
    Pops4(s, a1, a2, a3, a4);
    assert [a1, a2, a3, a4] + [a5] == [a1, a2, a3, a4, a5];
  }

  lemma Pops6(s: Stack, a1: Value, a2: Value, a3: Value, a4: Value, a5: Value, a6: Value)
    ensures PopN(Push(Push(Push(Push(Push(Push(s, a1), a2), a3), a4), a5), a6), 6)
         == Some((s, [a1, a2, a3, a4, a5, a6]))
  {
    Pops5(s, a1, a2, a3, a4, a5);
    assert [a1, a2, a3, a4, a5] + [a6] == [a1, a2, a3, a4, a5, a6];
  }

  lemma Pops7(s: Stack, a1: Value, a2: Value, a3: Value, a4: Value, a5: Value, a6: Value, a7: Value)
    ensures PopN(Push(Push(Push(Push(Push(Push(Push(s, a1), a2), a3), a4), a5), a6), a7), 7)
         == Some((s, [a1, a2, a3, a4, a5, a6, a7]))
  {
    Pops6(s, a1, a2, a3, a4, a5, a6);
    assert [a1, a2, a3, a4, a5, a6] + [a7] == [a1, a2, a3, a4, a5, a6, a7];
  }

  lemma Pops8(s: Stack, a1: Value, a2: Value, a3: Value, a4: Value, a5: Value, a6: Value, a7: Value,
              a8: Value)
    ensures PopN(Push(Push(Push(Push(Push(Push(Push(Push(s, a1), a2), a3), a4), a5), a6), a7), a8), 8)
         == Some((s, [a1, a2, a3, a4, a5, a6, a7, a8]))
  {
    Pops7(s, a1, a2, a3, a4, a5, a6, a7);
    assert [a1, a2, a3, a4, a5, a6, a7] + [a8] == [a1, a2, a3, a4, a5, a6, a7, a8];
  }

  lemma Pops9(s: Stack, a1: Value, a2: Value, a3: Value, a4: Value, a5: Value, a6: Value, a7: Value,
              a8: Value, a9: Value)
    ensures PopN(Push(Push(Push(Push(Push(Push(Push(Push(Push(s, a1), a2), a3), a4), a5), a6), a7), a8), a9), 9)
         == Some((s, [a1, a2, a3, a4, a5, a6, a7, a8, a9]))
  {
    Pops8(s, a1, a2, a3, a4, a5, a6, a7, a8);
    assert [a1, a2, a3, a4, a5, a6, a7, a8] + [a9] == [a1, a2, a3, a4, a5, a6, a7, a8, a9];
  }

  lemma Pops10(s: Stack, a1: Value, a2: Value, a3: Value, a4: Value, a5: Value, a6: Value, a7: Value,
               a8: Value, a9: Value, a10: Value)
    ensures PopN(Push(Push(Push(Push(Push(Push(Push(Push(Push(Push(s, a1), a2), a3), a4), a5), a6), a7), a8), a9), a10), 10)
         == Some((s, [a1, a2, a3, a4, a5, a6, a7, a8, a9, a10]))
  {
    Pops9(s, a1, a2, a3, a4, a5, a6, a7, a8, a9);
    assert [a1, a2, a3, a4, a5, a6, a7, a8, a9] + [a10] == [a1, a2, a3, a4, a5, a6, a7, a8, a9, a10];
  }

  lemma Pops11(s: Stack, a1: Value, a2: Value, a3: Value, a4: Value, a5: Value, a6: Value, a7: Value,
               a8: Value, a9: Value, a10: Value, a11: Value)
    ensures PopN(Push(Push(Push(Push(Push(Push(Push(Push(Push(Push(Push(s, a1), a2), a3), a4), a5), a6), a7), a8), a9), a10), a11), 11)
         == Some((s, [a1, a2, a3, a4, a5, a6, a7, a8, a9, a10, a11]))
  {
    Pops10(s, a1, a2, a3, a4, a5, a6, a7, a8, a9, a10);
    assert [a1, a2, a3, a4, a5, a6, a7, a8, a9, a10] + [a11] == [a1, a2, a3, a4, a5, a6, a7, a8, a9, a10, a11];
  }

  // Small runs that longer proofs are assembled from with `RunThen`: a proof
  // that steps through many instructions at once is costly to check.

  /** A static call takes its arguments off the stack and is logged. */
  lemma InvokeRun(owner: string, name: string, desc: string, n: nat, s: Stack, rest: Stack,
                  args: seq<Value>, e: seq<Effect>)
    requires PopN(s, n) == Some((rest, args))
    ensures Run([InvokeStatic(owner, name, desc, n)], Machine(s, e))
         == Some(Machine(rest, e + [Call(owner, name, args)]))
  {
    RunDone([InvokeStatic(owner, name, desc, n)], Machine(rest, e + [Call(owner, name, args)]));
  }

  lemma Ldc2Run(a: Const, b: Const, s: Stack, e: seq<Effect>)
    ensures Run([Ldc(a), Ldc(b)], Machine(s, e))
         == Some(Machine(Push(Push(s, ConstValue(a)), ConstValue(b)), e))
  {
    var code := [Ldc(a), Ldc(b)];
    var m := StepAt(code, 0, Machine(s, e));
    m := StepAt(code, 1, m);
  }

  lemma Ldc3Run(a: Const, b: Const, c: Const, s: Stack, e: seq<Effect>)
    ensures Run([Ldc(a), Ldc(b), Ldc(c)], Machine(s, e))
         == Some(Machine(Push(Push(Push(s, ConstValue(a)), ConstValue(b)), ConstValue(c)), e))
  {
    var code := [Ldc(a), Ldc(b), Ldc(c)];
    var m := StepAt(code, 0, Machine(s, e));
    m := StepAt(code, 1, m);
    m := StepAt(code, 2, m);
  }

  /** A constant, then a static call that takes it as its last argument. */
  lemma LdcInvokeRun(c: Const, owner: string, name: string, desc: string, n: nat, s: Stack, rest: Stack,
                     args: seq<Value>, e: seq<Effect>)
    requires PopN(Push(s, ConstValue(c)), n) == Some((rest, args))
    ensures Run([Ldc(c), InvokeStatic(owner, name, desc, n)], Machine(s, e))
         == Some(Machine(rest, e + [Call(owner, name, args)]))
  {
    var code := [Ldc(c), InvokeStatic(owner, name, desc, n)];
    var m := StepAt(code, 0, Machine(s, e));
    m := StepAt(code, 1, m);
  }

  lemma DupRun(r: Stack, a: Value, e: seq<Effect>)
    requires Cat1(a)
    ensures Run([Dup], Machine(Push(r, a), e)) == Some(Machine(Push(Push(r, a), a), e))
  {
    RunDone([Dup], Machine(Push(Push(r, a), a), e));
  }

  lemma Dup2Run(r: Stack, a: Value, b: Value, e: seq<Effect>)
    requires Cat1(a) && Cat1(b)
    ensures Run([Dup2], Machine(Push(Push(r, a), b), e))
         == Some(Machine(Push(Push(Push(Push(r, a), b), a), b), e))
  {
    RunDone([Dup2], Machine(Push(Push(Push(Push(r, a), b), a), b), e));
  }

  /** Five constants, as the field hooks push their strings. */
  lemma Ldc5Run(a: Const, b: Const, c: Const, d: Const, f: Const, s: Stack, e: seq<Effect>)
    ensures Run([Ldc(a), Ldc(b), Ldc(c), Ldc(d), Ldc(f)], Machine(s, e))
         == Some(Machine(Push(Push(Push(Push(Push(s, ConstValue(a)), ConstValue(b)), ConstValue(c)),
                                   ConstValue(d)), ConstValue(f)), e))
  {
    var s3 := Push(Push(Push(s, ConstValue(a)), ConstValue(b)), ConstValue(c));
    Ldc3Run(a, b, c, s, e);
    Ldc2Run(d, f, s3, e);
    RunThen([Ldc(a), Ldc(b), Ldc(c)], [Ldc(d), Ldc(f)], Machine(s, e), Machine(s3, e));
    assert [Ldc(a), Ldc(b), Ldc(c)] + [Ldc(d), Ldc(f)] == [Ldc(a), Ldc(b), Ldc(c), Ldc(d), Ldc(f)];
  }

  // ----- GeneratorAdapter.swap(prev, type) --------------------------------

  /** The instructions ASM's `GeneratorAdapter.swap(prev, type)` emits to
      exchange a top value of `topSize` slots with the `prevSize`-slot value
      beneath it. */
  function SwapCode(prevSize: nat, topSize: nat): seq<Insn> {
    if topSize == 1 then
      if prevSize == 1 then [Swap] else [DupX2, Pop]
    else
      if prevSize == 1 then [Dup2X1, Pop2] else [Dup2X2, Pop2]
  }

  /** Whatever the categories, the emitted code exchanges the two values. */
  lemma SwapCodeSwaps(r: Stack, a: Value, b: Value, e: seq<Effect>)
    ensures Run(SwapCode(Size(a), Size(b)), Machine(Push(Push(r, a), b), e))
         == Some(Machine(Push(Push(r, b), a), e))
  {
    if Size(a) != 1 || Size(b) != 1 {
      // every two-instruction form goes through .. b, a, b
      assert RunFrom(SwapCode(Size(a), Size(b)), 1, Machine(Push(Push(Push(r, b), a), b), e))
          == Some(Machine(Push(Push(r, b), a), e));
    } else {
      assert RunFrom([Swap], 1, Machine(Push(Push(r, b), a), e)) == Some(Machine(Push(Push(r, b), a), e));
    }
  }
}
