/** `VarMV`: reports every load of a reference local (other than `this`) to
    the trace sink as `loadVar`, and every store into a reference local as
    `storeVar`, before passing the instruction on. */
module VarMv {
  import opened Common
  import opened Jvm
  import opened InstrumentationMv
  import Instrument

  const NI := "NativeInterface"
  const LOAD_VAR_DESC := "(ILjava/lang/Object;ILjava/lang/String;Ljava/lang/String;ILjava/lang/Object;)V"
  const STORE_VAR_DESC :=
    "(ILjava/lang/Object;ILjava/lang/Object;ILjava/lang/String;Ljava/lang/String;ILjava/lang/Object;)V"

  /** `isThisVar(var)`: local 0 of an instance method. */
  predicate IsThisVar(info: MethodInfo, v: nat) {
    !IsStatic(info) && v == 0
  }

  /** Two pairs with code between and after them: the first pair is
      computed before anything is emitted, the second after the code
      between. */
  function TwoPairs(r1: Result<Pushed>, mid: seq<Insn>, r2: Result<Pushed>, post: seq<Insn>): Emission {
    match r1
    case Err(ex) => Emission([], Some(ex))
    case Ok(p1) => Around(KindObjCode(p1) + mid, r2, post)
  }

  // ----- loadVar -----------------------------------------------------------

  /** Between the loaded value and the caller: the local's index, the
      caller's class and the caller's name. */
  function LoadVarMid(info: MethodInfo, v: nat): seq<Insn> {
    [Ldc(IntC(v)), Ldc(StrC(info.className)), Ldc(StrC(info.name))]
  }

  const LOAD_VAR_POST: seq<Insn> := [InvokeStatic(NI, "loadVar", LOAD_VAR_DESC, 7)]

  function LoadVarCode(info: MethodInfo, v: nat, value: Pushed, caller: Pushed): seq<Insn> {
    KindObjCode(value) + LoadVarMid(info, v) + KindObjCode(caller) + LOAD_VAR_POST
  }

  function LoadVarArgs(info: MethodInfo, v: nat, value: Pushed, caller: Pushed): seq<Value>
    requires Loads(value.obj) && Loads(caller.obj)
  {
    [IntV(value.kind), ObjValue(value.obj, Bottom), IntV(v), StrV(info.className), StrV(info.name),
     IntV(caller.kind), ObjValue(caller.obj, Bottom)]
  }

  /** The `loadVar` code leaves the stack as it found it and makes one
      call: the local's kind and value, its index, the caller's class and
      name, and the caller's kind and receiver. */
  lemma LoadVarNeutral(info: MethodInfo, v: nat, value: Pushed, caller: Pushed, s: Stack, e: seq<Effect>)
    requires Loads(value.obj) && Loads(caller.obj)
    ensures Run(LoadVarCode(info, v, value, caller), Machine(s, e))
         == Some(Machine(s, e + [Call(NI, "loadVar", LoadVarArgs(info, v, value, caller))]))
  {
    var s2 := Push(Push(s, IntV(value.kind)), ObjValue(value.obj, s));
    var s5 := Push(Push(Push(s2, IntV(v)), StrV(info.className)), StrV(info.name));
    var s7 := Push(Push(s5, IntV(caller.kind)), ObjValue(caller.obj, s5));
    KindObjCodePushes(value, s, e);
    Ldc3Run(IntC(v), StrC(info.className), StrC(info.name), s2, e);
    RunThen(KindObjCode(value), LoadVarMid(info, v), Machine(s, e), Machine(s2, e));
    RunAround(KindObjCode(value) + LoadVarMid(info, v), caller, LOAD_VAR_POST, Machine(s, e), Machine(s5, e));
    Pops7(s, IntV(value.kind), ObjValue(value.obj, s), IntV(v), StrV(info.className), StrV(info.name),
          IntV(caller.kind), ObjValue(caller.obj, s5));
    InvokeRun(NI, "loadVar", LOAD_VAR_DESC, 7, s7, s, LoadVarArgs(info, v, value, caller), e);
  }

  // ----- storeVar ----------------------------------------------------------

  /** Between the new value and the caller: the old value, which is not
      supplied (kind NOT_IMPLEMENTED and `null`), the local's index, the
      caller's class and the caller's name. */
  function StoreVarMid(info: MethodInfo, v: nat): seq<Insn> {
    [Ldc(IntC(Instrument.SPECIAL_VAL_NOT_IMPLEMENTED)), AconstNull,
     Ldc(IntC(v)), Ldc(StrC(info.className)), Ldc(StrC(info.name))]
  }

  const STORE_VAR_POST: seq<Insn> := [InvokeStatic(NI, "storeVar", STORE_VAR_DESC, 9)]

  function StoreVarCode(info: MethodInfo, v: nat, newVal: Pushed, caller: Pushed): seq<Insn> {
    KindObjCode(newVal) + StoreVarMid(info, v) + KindObjCode(caller) + STORE_VAR_POST
  }

  function StoreVarArgs(info: MethodInfo, v: nat, newVal: Pushed, stored: Value, caller: Pushed): seq<Value>
    requires Loadable(newVal.obj, Push(Bottom, stored)) && Loads(caller.obj)
  {
    [IntV(newVal.kind), ObjValue(newVal.obj, Push(Bottom, stored)),
     IntV(Instrument.SPECIAL_VAL_NOT_IMPLEMENTED), NullV, IntV(v),
     StrV(info.className), StrV(info.name), IntV(caller.kind), ObjValue(caller.obj, Bottom)]
  }

  lemma StoreVarMidRun(info: MethodInfo, v: nat, s: Stack, e: seq<Effect>)
    ensures Run(StoreVarMid(info, v), Machine(s, e))
         == Some(Machine(Push(Push(Push(Push(Push(s, IntV(Instrument.SPECIAL_VAL_NOT_IMPLEMENTED)), NullV),
                                             IntV(v)), StrV(info.className)), StrV(info.name)), e))
  {
    var code := StoreVarMid(info, v);
    var m := StepAt(code, 0, Machine(s, e));
    m := StepAt(code, 1, m);
    m := StepAt(code, 2, m);
    m := StepAt(code, 3, m);
    m := StepAt(code, 4, m);
  }

  /** The `storeVar` code, on a stack whose top is the reference about to
      be stored, leaves that stack as it found it and makes one call: the
      new value's kind and the value (a copy of the top), the missing old
      value, the local's index, the caller's class and name, and the
      caller's kind and receiver. */
  lemma StoreVarNeutral(info: MethodInfo, v: nat, newVal: Pushed, caller: Pushed,
                        r: Stack, stored: Value, e: seq<Effect>)
    requires newVal.obj == NullObj || newVal.obj == TopObj
    requires Cat1(stored) && Loads(caller.obj)
    ensures Run(StoreVarCode(info, v, newVal, caller), Machine(Push(r, stored), e))
         == Some(Machine(Push(r, stored), e + [Call(NI, "storeVar", StoreVarArgs(info, v, newVal, stored, caller))]))
  {
    var s := Push(r, stored);
    var s2 := Push(Push(s, IntV(newVal.kind)), ObjValue(newVal.obj, s));
    var s7 := Push(Push(Push(Push(Push(s2, IntV(Instrument.SPECIAL_VAL_NOT_IMPLEMENTED)), NullV),
                             IntV(v)), StrV(info.className)), StrV(info.name));
    var s9 := Push(Push(s7, IntV(caller.kind)), ObjValue(caller.obj, s7));
    KindObjCodePushes(newVal, s, e);
    StoreVarMidRun(info, v, s2, e);
    RunThen(KindObjCode(newVal), StoreVarMid(info, v), Machine(s, e), Machine(s2, e));
    RunAround(KindObjCode(newVal) + StoreVarMid(info, v), caller, STORE_VAR_POST, Machine(s, e), Machine(s7, e));
    Pops9(s, IntV(newVal.kind), ObjValue(newVal.obj, s), IntV(Instrument.SPECIAL_VAL_NOT_IMPLEMENTED), NullV,
          IntV(v), StrV(info.className), StrV(info.name), IntV(caller.kind), ObjValue(caller.obj, s7));
    InvokeRun(NI, "storeVar", STORE_VAR_DESC, 9, s9, s, StoreVarArgs(info, v, newVal, stored, caller), e);
  }

  // ----- visitVarInsn ------------------------------------------------------

  /** What `visitVarInsn` emits before the instruction itself. */
  function VarAccessEmission(info: MethodInfo, frame: Frame, opcode: int, v: nat): Emission {
    if opcode == ALOAD && !IsThisVar(info, v) then
      TwoPairs(KindAndObjectInVar(frame, v), LoadVarMid(info, v), ThisKindAndObj(info, frame), LOAD_VAR_POST)
    else if opcode == ASTORE then
      TwoPairs(KindAndObjectAtDepth(frame, 0), StoreVarMid(info, v), ThisKindAndObj(info, frame), STORE_VAR_POST)
    else Emission([], None)
  }

  /** `visitVarInsn`: the report, then the instruction. */
  function VisitVarInsnEmission(info: MethodInfo, frame: Frame, opcode: int, v: nat): Emission {
    Then(VarAccessEmission(info, frame, opcode, v), [Var(opcode, v)])
  }

  /** Loads and stores of primitives, `RET`, and loads of `this` are passed
      on alone. */
  lemma VisitVarInsnSkips(info: MethodInfo, frame: Frame, opcode: int, v: nat)
    requires opcode != ASTORE && (opcode != ALOAD || IsThisVar(info, v))
    ensures VisitVarInsnEmission(info, frame, opcode, v) == Emission([Var(opcode, v)], None)
  {
  }

  /** Loading a reference local other than `this`: rewriting fails exactly
      when the local holds a primitive or the receiver cannot be read;
      otherwise the `loadVar` report precedes the load, and leaves the stack
      as it found it. */
  lemma LoadVarTransparent(info: MethodInfo, frame: Frame, v: nat, s: Stack, e: seq<Effect>)
    requires !IsThisVar(info, v)
    ensures var em := VisitVarInsnEmission(info, frame, ALOAD, v);
            (em.thrown.None? <==> KindAndObjectInVar(frame, v).Ok? && ThisKindAndObj(info, frame).Ok?)
            && (em.thrown.None? ==>
                  var value, caller := KindAndObjectInVar(frame, v).value, ThisKindAndObj(info, frame).value;
                  em.code == LoadVarCode(info, v, value, caller) + [Var(ALOAD, v)]
                  && Run(LoadVarCode(info, v, value, caller), Machine(s, e))
                     == Some(Machine(s, e + [Call(NI, "loadVar", LoadVarArgs(info, v, value, caller))])))
  {
    if KindAndObjectInVar(frame, v).Ok? && ThisKindAndObj(info, frame).Ok? {
      LoadVarNeutral(info, v, KindAndObjectInVar(frame, v).value, ThisKindAndObj(info, frame).value, s, e);
    }
  }

  /** Storing a reference: rewriting fails exactly when the analyzer's
      stack is known and empty or the receiver cannot be read; otherwise
      the `storeVar` report precedes the store, and leaves the stack as it
      found it. */
  lemma StoreVarTransparent(info: MethodInfo, frame: Frame, v: nat, r: Stack, stored: Value, e: seq<Effect>)
    requires Cat1(stored)
    ensures var em := VisitVarInsnEmission(info, frame, ASTORE, v);
            (em.thrown.None? <==> (frame.stack.None? || |frame.stack.value| > 0) && ThisKindAndObj(info, frame).Ok?)
            && (em.thrown.None? ==>
                  var newVal, caller := KindAndObjectAtDepth(frame, 0).value, ThisKindAndObj(info, frame).value;
                  em.code == StoreVarCode(info, v, newVal, caller) + [Var(ASTORE, v)]
                  && Run(StoreVarCode(info, v, newVal, caller), Machine(Push(r, stored), e))
                     == Some(Machine(Push(r, stored),
                                     e + [Call(NI, "storeVar", StoreVarArgs(info, v, newVal, stored, caller))])))
  {
    if KindAndObjectAtDepth(frame, 0).Ok? && ThisKindAndObj(info, frame).Ok? {
      StoreVarNeutral(info, v, KindAndObjectAtDepth(frame, 0).value, ThisKindAndObj(info, frame).value,
                      r, stored, e);
    }
  }

  /** A stored reference is passed as the new value unless the analyzer
      sees an uninitialised `this` on top, which is passed as kind THIS and
      no object. */
  lemma StoreVarPassesStored(info: MethodInfo, frame: Frame, v: nat, stored: Value)
    requires Cat1(stored) && frame.stack.Some? && |frame.stack.value| > 0
    ensures var newVal := KindAndObjectAtDepth(frame, 0).value;
            var top := frame.stack.value[|frame.stack.value| - 1];
            (top != UninitializedThis ==>
               newVal.kind == Instrument.SPECIAL_VAL_NORMAL && ObjValue(newVal.obj, Push(Bottom, stored)) == stored)
            && (top == UninitializedThis ==>
               newVal.kind == Instrument.SPECIAL_VAL_THIS && ObjValue(newVal.obj, Push(Bottom, stored)) == NullV)
  {
  }

  // ----- the visitor --------------------------------------------------------

  class VarMV {
    const base: InstrumentationMV

    constructor(base: InstrumentationMV)
      ensures this.base == base
    {
      this.base := base;
    }

    /** The `loadVar` report of `visitVarInsn`. */
    method EmitLoadVar(v: nat) returns (thrown: Option<JavaException>)
      modifies base`out
      ensures var em := TwoPairs(KindAndObjectInVar(base.frame, v), LoadVarMid(base.info, v),
                                 ThisKindAndObj(base.info, base.frame), LOAD_VAR_POST);
              thrown == em.thrown && base.out == old(base.out) + em.code
    {
      thrown := base.PushKindAndObjectInVar(v);
      if thrown.Some? {
        return;
      }
      base.EmitCode(LoadVarMid(base.info, v));
      thrown := base.PushThisKindAndObj();
      if thrown.Some? {
        return;
      }
      base.EmitCode(LOAD_VAR_POST);
    }

    /** The `storeVar` report of `visitVarInsn`. */
    method EmitStoreVar(v: nat) returns (thrown: Option<JavaException>)
      modifies base`out
      ensures var em := TwoPairs(KindAndObjectAtDepth(base.frame, 0), StoreVarMid(base.info, v),
                                 ThisKindAndObj(base.info, base.frame), STORE_VAR_POST);
              thrown == em.thrown && base.out == old(base.out) + em.code
    {
      thrown := base.PushKindAndObjectAtDepth(0);
      if thrown.Some? {
        return;
      }
      base.EmitCode(StoreVarMid(base.info, v));
      thrown := base.PushThisKindAndObj();
      if thrown.Some? {
        return;
      }
      base.EmitCode(STORE_VAR_POST);
    }

    /** `visitVarInsn`. */
    method VisitVarInsn(opcode: int, v: nat) returns (thrown: Option<JavaException>)
      modifies base`out
      ensures thrown == VisitVarInsnEmission(base.info, base.frame, opcode, v).thrown
      ensures base.out == old(base.out) + VisitVarInsnEmission(base.info, base.frame, opcode, v).code
    {
      thrown := None;
      if opcode == ALOAD && !IsThisVar(base.info, v) {
        thrown := EmitLoadVar(v);
      } else if opcode == ASTORE {
        thrown := EmitStoreVar(v);
      }
      if thrown.Some? {
        return;
      }
      base.Emit(Var(opcode, v));
    }
  }
}
