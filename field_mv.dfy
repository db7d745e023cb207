/** `FieldMV`: reports every array element access and every field access to
    the trace sink.  Before each such instruction it emits code that copies
    the operands, calls a `NativeInterface` hook with them, and leaves the
    operand stack exactly as the original instruction expects it. */
module FieldMv {
  import opened Common
  import opened Jvm
  import opened InstrumentationMv
  import InstrumentationVisitor
  import NativeInterface
  import Instrument

  const NI := "NativeInterface"

  const ARRAY_HOOK_DESC := "(Ljava/lang/Object;IILjava/lang/Object;Ljava/lang/String;)V"
  const STORE_ARRAY_A_DESC :=
    "(Ljava/lang/Object;[Ljava/lang/Object;ILjava/lang/Object;Ljava/lang/String;Ljava/lang/String;Ljava/lang/String;ILjava/lang/Object;)V"
  const LOAD_ARRAY_A_DESC :=
    "([Ljava/lang/Object;ILjava/lang/Object;Ljava/lang/String;Ljava/lang/String;Ljava/lang/String;ILjava/lang/Object;)V"
  const READ_MODIFY_DESC :=
    "(ILjava/lang/Object;Ljava/lang/String;Ljava/lang/String;ILjava/lang/Object;Ljava/lang/String;)V"
  const LOAD_FIELD_A_DESC :=
    "(Ljava/lang/Object;ILjava/lang/Object;Ljava/lang/String;Ljava/lang/String;Ljava/lang/String;Ljava/lang/String;Ljava/lang/String;ILjava/lang/Object;)V"
  const STORE_FIELD_A_DESC :=
    "(ILjava/lang/Object;Ljava/lang/Object;Ljava/lang/Object;Ljava/lang/String;Ljava/lang/String;Ljava/lang/String;Ljava/lang/String;Ljava/lang/String;ILjava/lang/Object;)V"

  /** The class reported for an array whose type the analyzer does not know. */
  const UNKNOWN_ARRAY := "[Ljava/lang/Object;"

  // ----- primitive array elements ----------------------------------------

  /** The call `emitLoadArrayPrimitive` ends with, after the caller pair. */
  function LoadArrayPrimitivePost(cls: string): seq<Insn> {
    [Ldc(StrC(cls)), InvokeStatic(NI, "readArray", ARRAY_HOOK_DESC, 5)]
  }

  /** `emitLoadArrayPrimitive`: `.. arr, idx` is copied and handed to
      `readArray` with the caller's kind, the caller and its class. */
  function LoadArrayPrimitiveCode(cls: string, tk: Pushed): seq<Insn> {
    [Dup2] + KindObjCode(tk) + LoadArrayPrimitivePost(cls)
  }

  /** The code leaves `.. arr, idx` in place for the load and calls
      `readArray(arr, idx, callerValKind, caller, callerClass)`. */
  lemma LoadArrayPrimitiveNeutral(cls: string, tk: Pushed, r: Stack, arr: Value, idx: Value, e: seq<Effect>)
    requires Loads(tk.obj) && Cat1(arr) && Cat1(idx)
    ensures Run(LoadArrayPrimitiveCode(cls, tk), Machine(Push(Push(r, arr), idx), e))
         == Some(Machine(Push(Push(r, arr), idx),
                         e + [Call(NI, "readArray", [arr, idx, IntV(tk.kind), ObjValue(tk.obj, Bottom), StrV(cls)])]))
  {
    var s := Push(Push(r, arr), idx);
    var s1 := Push(Push(s, arr), idx);
    Dup2Run(r, arr, idx, e);
    RunAround([Dup2], tk, LoadArrayPrimitivePost(cls), Machine(s, e), Machine(s1, e));
    var o := ObjValue(tk.obj, Bottom);
    Pops5(s, arr, idx, IntV(tk.kind), o, StrV(cls));
    LdcInvokeRun(StrC(cls), NI, "readArray", ARRAY_HOOK_DESC, 5, Push(Push(s1, IntV(tk.kind)), o), s,
                 [arr, idx, IntV(tk.kind), o, StrV(cls)], e);
  }

  /** `.. arr, idx, val` becomes `.. val, arr, idx`, for a value of
      `valSize` slots. */
  function ValBelowCode(valSize: nat): seq<Insn> {
    if valSize == 1 then [DupX2, Pop] else [Dup2X2, Pop2]
  }

  /** `.. val, arr, idx` becomes `.. arr, idx, val` again. */
  function ValAboveCode(valSize: nat): seq<Insn> {
    if valSize == 1 then [Dup2X1, Pop2] else [Dup2X2, Pop2]
  }

  lemma ValBelowRun(r: Stack, arr: Value, idx: Value, val: Value, e: seq<Effect>)
    requires Cat1(arr) && Cat1(idx)
    ensures Run(ValBelowCode(Size(val)), Machine(Push(Push(Push(r, arr), idx), val), e))
         == Some(Machine(Push(Push(Push(r, val), arr), idx), e))
  {
    var code := ValBelowCode(Size(val));
    var m := StepAt(code, 0, Machine(Push(Push(Push(r, arr), idx), val), e));
    m := StepAt(code, 1, m);
  }

  lemma ValAboveRun(r: Stack, val: Value, arr: Value, idx: Value, e: seq<Effect>)
    requires Cat1(arr) && Cat1(idx)
    ensures Run(ValAboveCode(Size(val)), Machine(Push(Push(Push(r, val), arr), idx), e))
         == Some(Machine(Push(Push(Push(r, arr), idx), val), e))
  {
    var code := ValAboveCode(Size(val));
    var m := StepAt(code, 0, Machine(Push(Push(Push(r, val), arr), idx), e));
    m := StepAt(code, 1, m);
  }

  function StoreArrayPrimitivePost(cls: string, valSize: nat): seq<Insn> {
    [Ldc(StrC(cls)), InvokeStatic(NI, "modifyArray", ARRAY_HOOK_DESC, 5)] + ValAboveCode(valSize)
  }

  /** `emitStoreArrayPrimitive(valSize)`: the value (one or two slots) is
      moved below `arr, idx`, which are copied for `modifyArray`, and moved
      back on top. */
  function StoreArrayPrimitiveCode(cls: string, tk: Pushed, valSize: nat): seq<Insn> {
    ValBelowCode(valSize) + [Dup2] + KindObjCode(tk) + StoreArrayPrimitivePost(cls, valSize)
  }

  /** With `valSize` the size of the value being stored, the code leaves
      `.. arr, idx, val` in place for the store and calls
      `modifyArray(arr, idx, callerValKind, caller, callerClass)`. */
  lemma StoreArrayPrimitiveNeutral(cls: string, tk: Pushed, r: Stack, arr: Value, idx: Value, val: Value,
                                   e: seq<Effect>)
    requires Loads(tk.obj) && Cat1(arr) && Cat1(idx)
    ensures Run(StoreArrayPrimitiveCode(cls, tk, Size(val)), Machine(Push(Push(Push(r, arr), idx), val), e))
         == Some(Machine(Push(Push(Push(r, arr), idx), val),
                         e + [Call(NI, "modifyArray", [arr, idx, IntV(tk.kind), ObjValue(tk.obj, Bottom), StrV(cls)])]))
  {
    var w := Size(val);
    var s := Push(Push(Push(r, arr), idx), val);
    var below := Push(Push(Push(r, val), arr), idx);
    var s2 := Push(Push(below, arr), idx);
    ValBelowRun(r, arr, idx, val, e);
    Dup2Run(Push(r, val), arr, idx, e);
    RunThen(ValBelowCode(w), [Dup2], Machine(s, e), Machine(below, e));
    var call := [Ldc(StrC(cls)), InvokeStatic(NI, "modifyArray", ARRAY_HOOK_DESC, 5)];
    RunAround(ValBelowCode(w) + [Dup2], tk, call + ValAboveCode(w), Machine(s, e), Machine(s2, e));
    var o := ObjValue(tk.obj, Bottom);
    var args := [arr, idx, IntV(tk.kind), o, StrV(cls)];
    Pops5(below, arr, idx, IntV(tk.kind), o, StrV(cls));
    LdcInvokeRun(StrC(cls), NI, "modifyArray", ARRAY_HOOK_DESC, 5, Push(Push(s2, IntV(tk.kind)), o), below, args, e);
    RunThen(call, ValAboveCode(w), Machine(Push(Push(s2, IntV(tk.kind)), o), e),
            Machine(below, e + [Call(NI, "modifyArray", args)]));
    ValAboveRun(r, val, arr, idx, e + [Call(NI, "modifyArray", args)]);
  }

  // ----- reference array elements ----------------------------------------

  /** The class of the array an `AASTORE` (depth 3) or `AALOAD` (depth 2)
      works on, read from the downstream analyzer's stack.  `None` is a
      downstream visitor that is no `AnalyzerAdapter`, which the cast to
      `AnalyzerAdapter` rejects; a stack entry that is not a class name fails
      the cast to `String`. */
  function ArrayHolder(downstream: Option<Frame>, depth: nat): (r: Result<string>)
    requires depth >= 1
    ensures r.Ok? ==> StartsWith(r.value, "[")
    ensures r.Ok? && downstream.Some? && downstream.value.stack.Some? ==>
              var st := downstream.value.stack.value;
              depth <= |st| && st[|st| - depth] == Ref(r.value)
    ensures downstream.Some? && downstream.value.stack.None? ==> r == Ok(UNKNOWN_ARRAY)
    ensures downstream.None? ==> r == Err(ClassCast)
  {
    match downstream
    case None => Err(ClassCast)
    case Some(f) =>
      match f.stack
      case None => Ok(UNKNOWN_ARRAY)
      case Some(st) =>
        if |st| < depth then Err(IndexOutOfBounds)
        else match st[|st| - depth]
          case Ref(name) =>
            if StartsWith(name, "[") then Ok(name)
            else Err(IllegalState("callee class must be an array!"))
          case _ => Err(ClassCast)
  }

  /** A holder class the rewriter hands to `loadArrayA`/`storeArrayA` always
      names an array, so the sink's `substring(1)` yields its element type. */
  lemma ArrayHolderFeedsSink(downstream: Option<Frame>, depth: nat, arr: NativeInterface.JObject, idx: int,
                             val: NativeInterface.JObject, callerMethod: string, callerClass: string,
                             callerValKind: int, caller: NativeInterface.JObject)
    requires depth >= 1 && ArrayHolder(downstream, depth).Ok?
    ensures var h := ArrayHolder(downstream, depth).value;
            NativeInterface.LoadArrayA(arr, idx, val, h, callerMethod, callerClass, callerValKind, caller).Ok?
            && NativeInterface.StoreArrayA(val, arr, idx, val, h, callerMethod, callerClass, callerValKind, caller).Ok?
  {
    var h := ArrayHolder(downstream, depth).value;
    NativeInterface.LoadArrayADelegates(arr, idx, val, h, callerMethod, callerClass, callerValKind, caller);
    NativeInterface.StoreArrayADelegates(val, arr, idx, val, h, callerMethod, callerClass, callerValKind, caller);
  }

  /** A known stack whose array entry is not an array class is refused. */
  lemma ArrayHolderRejectsNonArray(f: Frame, depth: nat, name: string)
    requires depth >= 1 && f.stack.Some? && depth <= |f.stack.value|
    requires f.stack.value[|f.stack.value| - depth] == Ref(name) && !StartsWith(name, "[")
    ensures ArrayHolder(Some(f), depth) == Err(IllegalState("callee class must be an array!"))
  {
  }

  /** `.. arr, idx` becomes `.. arr, idx, arr[idx]`. */
  lemma ReadElementRun(r: Stack, arr: Value, idx: Value, e: seq<Effect>)
    requires Cat1(arr) && Cat1(idx)
    ensures Run([Dup2, Aaload], Machine(Push(Push(r, arr), idx), e))
         == Some(Machine(Push(Push(Push(r, arr), idx), ElemV(arr, idx)), e))
  {
    var code := [Dup2, Aaload];
    var m := StepAt(code, 0, Machine(Push(Push(r, arr), idx), e));
    m := StepAt(code, 1, m);
  }

  /** `.. arr, idx, val` becomes `.. arr, idx, val, val, arr, idx`. */
  lemma CopyStoreOperandsRun(r: Stack, arr: Value, idx: Value, val: Value, e: seq<Effect>)
    requires Cat1(arr) && Cat1(idx) && Cat1(val)
    ensures Run([DupX2, DupX2, Pop, Dup2X2], Machine(Push(Push(Push(r, arr), idx), val), e))
         == Some(Machine(Push(Push(Push(Push(Push(Push(r, arr), idx), val), val), arr), idx), e))
  {
    var code := [DupX2, DupX2, Pop, Dup2X2];
    var m := StepAt(code, 0, Machine(Push(Push(Push(r, arr), idx), val), e));
    m := StepAt(code, 1, m);
    m := StepAt(code, 2, m);
    m := StepAt(code, 3, m);
  }

  function StoreArrayAPre(holder: string, mname: string, cls: string): seq<Insn> {
    [DupX2, DupX2, Pop, Dup2X2, Dup2, Aaload, Ldc(StrC(holder)), Ldc(StrC(mname)), Ldc(StrC(cls))]
  }

  const STORE_ARRAY_A_POST := [InvokeStatic(NI, "storeArrayA", STORE_ARRAY_A_DESC, 9)]

  /** `emitStoreArrayA`: `.. arr, idx, newVal` is copied, the old element is
      read, and `storeArrayA` receives both values. */
  function StoreArrayACode(holder: string, mname: string, cls: string, tk: Pushed): seq<Insn> {
    StoreArrayAPre(holder, mname, cls) + KindObjCode(tk) + STORE_ARRAY_A_POST
  }

  /** The code leaves `.. arr, idx, newVal` in place for the store and calls
      `storeArrayA(newVal, arr, idx, oldVal, holderClass, callerMethod,
      callerClass, callerValKind, caller)`, `oldVal` being `arr[idx]` before
      the store. */
  lemma StoreArrayANeutral(holder: string, mname: string, cls: string, tk: Pushed,
                           r: Stack, arr: Value, idx: Value, val: Value, e: seq<Effect>)
    requires Loads(tk.obj) && Cat1(arr) && Cat1(idx) && Cat1(val)
    ensures Run(StoreArrayACode(holder, mname, cls, tk), Machine(Push(Push(Push(r, arr), idx), val), e))
         == Some(Machine(Push(Push(Push(r, arr), idx), val),
                         e + [Call(NI, "storeArrayA", [val, arr, idx, ElemV(arr, idx), StrV(holder), StrV(mname),
                                                       StrV(cls), IntV(tk.kind), ObjValue(tk.obj, Bottom)])]))
  {
    var s := Push(Push(Push(r, arr), idx), val);
    var a, b := [DupX2, DupX2, Pop, Dup2X2], [Dup2, Aaload];
    var c := [Ldc(StrC(holder)), Ldc(StrC(mname)), Ldc(StrC(cls))];
    var s1 := Push(Push(Push(s, val), arr), idx);
    var s2 := Push(s1, ElemV(arr, idx));
    var s3 := Push(Push(Push(s2, StrV(holder)), StrV(mname)), StrV(cls));
    CopyStoreOperandsRun(r, arr, idx, val, e);
    ReadElementRun(Push(s, val), arr, idx, e);
    RunThen(a, b, Machine(s, e), Machine(s1, e));
    Ldc3Run(StrC(holder), StrC(mname), StrC(cls), s2, e);
    RunThen(a + b, c, Machine(s, e), Machine(s2, e));
    RunAround(a + b + c, tk, STORE_ARRAY_A_POST, Machine(s, e), Machine(s3, e));
    var o := ObjValue(tk.obj, Bottom);
    Pops9(s, val, arr, idx, ElemV(arr, idx), StrV(holder), StrV(mname), StrV(cls), IntV(tk.kind), o);
    InvokeRun(NI, "storeArrayA", STORE_ARRAY_A_DESC, 9, Push(Push(s3, IntV(tk.kind)), o), s,
              [val, arr, idx, ElemV(arr, idx), StrV(holder), StrV(mname), StrV(cls), IntV(tk.kind), o], e);
    assert StoreArrayAPre(holder, mname, cls) == a + b + c;
  }

  function LoadArrayAPre(holder: string, mname: string, cls: string): seq<Insn> {
    [Dup2, Dup2, Aaload, Ldc(StrC(holder)), Ldc(StrC(mname)), Ldc(StrC(cls))]
  }

  const LOAD_ARRAY_A_POST := [InvokeStatic(NI, "loadArrayA", LOAD_ARRAY_A_DESC, 8)]

  /** `emitLoadArrayA`: `.. arr, idx` is copied twice, the element is read
      from one copy, and `loadArrayA` receives the other copy and the
      element. */
  function LoadArrayACode(holder: string, mname: string, cls: string, tk: Pushed): seq<Insn> {
    LoadArrayAPre(holder, mname, cls) + KindObjCode(tk) + LOAD_ARRAY_A_POST
  }

  /** The code leaves `.. arr, idx` in place for the load and calls
      `loadArrayA(arr, idx, arr[idx], holderClass, callerMethod, callerClass,
      callerValKind, caller)`. */
  lemma LoadArrayANeutral(holder: string, mname: string, cls: string, tk: Pushed,
                          r: Stack, arr: Value, idx: Value, e: seq<Effect>)
    requires Loads(tk.obj) && Cat1(arr) && Cat1(idx)
    ensures Run(LoadArrayACode(holder, mname, cls, tk), Machine(Push(Push(r, arr), idx), e))
         == Some(Machine(Push(Push(r, arr), idx),
                         e + [Call(NI, "loadArrayA", [arr, idx, ElemV(arr, idx), StrV(holder), StrV(mname), StrV(cls),
                                                      IntV(tk.kind), ObjValue(tk.obj, Bottom)])]))
  {
    var s := Push(Push(r, arr), idx);
    var a, b := [Dup2], [Dup2, Aaload];
    var c := [Ldc(StrC(holder)), Ldc(StrC(mname)), Ldc(StrC(cls))];
    var s1 := Push(Push(s, arr), idx);
    var s2 := Push(s1, ElemV(arr, idx));
    var s3 := Push(Push(Push(s2, StrV(holder)), StrV(mname)), StrV(cls));
    Dup2Run(r, arr, idx, e);
    ReadElementRun(s, arr, idx, e);
    RunThen(a, b, Machine(s, e), Machine(s1, e));
    Ldc3Run(StrC(holder), StrC(mname), StrC(cls), s2, e);
    RunThen(a + b, c, Machine(s, e), Machine(s2, e));
    RunAround(a + b + c, tk, LOAD_ARRAY_A_POST, Machine(s, e), Machine(s3, e));
    var o := ObjValue(tk.obj, Bottom);
    Pops8(s, arr, idx, ElemV(arr, idx), StrV(holder), StrV(mname), StrV(cls), IntV(tk.kind), o);
    InvokeRun(NI, "loadArrayA", LOAD_ARRAY_A_DESC, 8, Push(Push(s3, IntV(tk.kind)), o), s,
              [arr, idx, ElemV(arr, idx), StrV(holder), StrV(mname), StrV(cls), IntV(tk.kind), o], e);
    assert LoadArrayAPre(holder, mname, cls) == a + b + c;
  }

  // ----- primitive fields ------------------------------------------------

  /** The callee pair of `emitReadModifyCode`: null with kind STATIC for a
      static field, else a copy of the object on top with kind NORMAL. */
  function CalleePair(fieldIsStatic: bool): Pushed {
    if fieldIsStatic then Pushed(Instrument.SPECIAL_VAL_STATIC, NullObj)
    else Pushed(Instrument.SPECIAL_VAL_NORMAL, TopObj)
  }

  function OpName(read: bool): string {
    if read then "read" else "modify"
  }

  /** A `PUTFIELD` has the new value above the object; it is swapped below
      the object for the call and back afterwards. */
  predicate SwapsNewValue(fieldIsStatic: bool, read: bool) {
    !read && !fieldIsStatic
  }

  function ReadModifyPre(owner: string, name: string, desc: string, fieldIsStatic: bool, read: bool): seq<Insn> {
    (if SwapsNewValue(fieldIsStatic, read) then SwapCode(1, DescSize(desc)) else [])
    + KindObjCode(CalleePair(fieldIsStatic)) + [Ldc(StrC(owner)), Ldc(StrC(name))]
  }

  function ReadModifyPost(desc: string, fieldIsStatic: bool, read: bool, cls: string): seq<Insn> {
    [Ldc(StrC(cls)), InvokeStatic(NI, OpName(read), READ_MODIFY_DESC, 7)]
    + (if SwapsNewValue(fieldIsStatic, read) then SwapCode(DescSize(desc), 1) else [])
  }

  /** `emitReadModifyCode` for a field of primitive type. */
  function ReadModifyCode(owner: string, name: string, desc: string, fieldIsStatic: bool, read: bool,
                          cls: string, tk: Pushed): seq<Insn> {
    ReadModifyPre(owner, name, desc, fieldIsStatic, read) + KindObjCode(tk) + ReadModifyPost(desc, fieldIsStatic, read, cls)
  }

  /** The arguments of `read`/`modify`: the callee's kind and the callee, the
      field's owner and name, the caller's kind, the caller, and its class. */
  function ReadModifyArgs(fieldIsStatic: bool, callee: Value, owner: string, name: string, cls: string,
                          tk: Pushed): seq<Value>
    requires Loads(tk.obj)
  {
    [IntV(CalleePair(fieldIsStatic).kind), if fieldIsStatic then NullV else callee,
     StrV(owner), StrV(name), IntV(tk.kind), ObjValue(tk.obj, Bottom), StrV(cls)]
  }

  /** The call part of `emitReadModifyCode`, on a stack whose top is the
      callee (instance fields) or on any stack (static fields). */
  lemma ReadModifyCallRun(owner: string, name: string, fieldIsStatic: bool, read: bool, cls: string, tk: Pushed,
                          s: Stack, callee: Value, e: seq<Effect>)
    requires Loads(tk.obj)
    requires !fieldIsStatic ==> s.Push? && s.top == callee && Cat1(callee)
    ensures Run(KindObjCode(CalleePair(fieldIsStatic)) + [Ldc(StrC(owner)), Ldc(StrC(name))] + KindObjCode(tk)
                + [Ldc(StrC(cls)), InvokeStatic(NI, OpName(read), READ_MODIFY_DESC, 7)], Machine(s, e))
         == Some(Machine(s, e + [Call(NI, OpName(read), ReadModifyArgs(fieldIsStatic, callee, owner, name, cls, tk))]))
  {
    var cp := CalleePair(fieldIsStatic);
    var cv := if fieldIsStatic then NullV else callee;
    KindObjCodePushes(cp, s, e);
    var s1 := Push(Push(s, IntV(cp.kind)), cv);
    Ldc2Run(StrC(owner), StrC(name), s1, e);
    var s2 := Push(Push(s1, StrV(owner)), StrV(name));
    RunThen(KindObjCode(cp), [Ldc(StrC(owner)), Ldc(StrC(name))], Machine(s, e), Machine(s1, e));
    var post := [Ldc(StrC(cls)), InvokeStatic(NI, OpName(read), READ_MODIFY_DESC, 7)];
    RunAround(KindObjCode(cp) + [Ldc(StrC(owner)), Ldc(StrC(name))], tk, post, Machine(s, e), Machine(s2, e));
    var o := ObjValue(tk.obj, Bottom);
    Pops7(s, IntV(cp.kind), cv, StrV(owner), StrV(name), IntV(tk.kind), o, StrV(cls));
    LdcInvokeRun(StrC(cls), NI, OpName(read), READ_MODIFY_DESC, 7, Push(Push(s2, IntV(tk.kind)), o), s,
                 ReadModifyArgs(fieldIsStatic, callee, owner, name, cls, tk), e);
  }

  /** A read (`GETFIELD` on `.. callee`, `GETSTATIC` on any stack) leaves the
      stack in place and calls `read` with the callee, or with null and kind
      STATIC. */
  lemma ReadNeutral(owner: string, name: string, desc: string, fieldIsStatic: bool, cls: string, tk: Pushed,
                    r: Stack, callee: Value, e: seq<Effect>)
    requires Loads(tk.obj) && Cat1(callee)
    ensures var s := if fieldIsStatic then r else Push(r, callee);
            Run(ReadModifyCode(owner, name, desc, fieldIsStatic, true, cls, tk), Machine(s, e))
             == Some(Machine(s, e + [Call(NI, "read", ReadModifyArgs(fieldIsStatic, callee, owner, name, cls, tk))]))
  {
    var s := if fieldIsStatic then r else Push(r, callee);
    ReadModifyCallRun(owner, name, fieldIsStatic, true, cls, tk, s, callee, e);
    assert ReadModifyCode(owner, name, desc, fieldIsStatic, true, cls, tk)
        == KindObjCode(CalleePair(fieldIsStatic)) + [Ldc(StrC(owner)), Ldc(StrC(name))] + KindObjCode(tk)
           + [Ldc(StrC(cls)), InvokeStatic(NI, "read", READ_MODIFY_DESC, 7)];
  }

  /** A write (`PUTFIELD` on `.. callee, newVal`, `PUTSTATIC` on `.. newVal`)
      leaves the stack in place and calls `modify`; the new value, one or two
      slots as the descriptor says, is moved out of the way and back. */
  lemma ModifyNeutral(owner: string, name: string, desc: string, fieldIsStatic: bool, cls: string, tk: Pushed,
                      r: Stack, callee: Value, val: Value, e: seq<Effect>)
    requires Loads(tk.obj) && Cat1(callee) && Size(val) == DescSize(desc)
    ensures var s := if fieldIsStatic then Push(r, val) else Push(Push(r, callee), val);
            Run(ReadModifyCode(owner, name, desc, fieldIsStatic, false, cls, tk), Machine(s, e))
             == Some(Machine(s, e + [Call(NI, "modify", ReadModifyArgs(fieldIsStatic, callee, owner, name, cls, tk))]))
  {
    var call := KindObjCode(CalleePair(fieldIsStatic)) + [Ldc(StrC(owner)), Ldc(StrC(name))] + KindObjCode(tk)
                + [Ldc(StrC(cls)), InvokeStatic(NI, "modify", READ_MODIFY_DESC, 7)];
    var args := ReadModifyArgs(fieldIsStatic, callee, owner, name, cls, tk);
    if fieldIsStatic {
      ReadModifyCallRun(owner, name, fieldIsStatic, false, cls, tk, Push(r, val), callee, e);
      assert ReadModifyCode(owner, name, desc, fieldIsStatic, false, cls, tk) == call;
    } else {
      var s := Push(Push(r, callee), val);
      var t := Push(Push(r, val), callee);
      var e1 := e + [Call(NI, "modify", args)];
      SwapCodeSwaps(r, callee, val, e);
      ReadModifyCallRun(owner, name, fieldIsStatic, false, cls, tk, t, callee, e);
      RunThen(SwapCode(1, DescSize(desc)), call, Machine(s, e), Machine(t, e));
      SwapCodeSwaps(r, val, callee, e1);
      RunThen(SwapCode(1, DescSize(desc)) + call, SwapCode(DescSize(desc), 1), Machine(s, e), Machine(t, e1));
      assert ReadModifyCode(owner, name, desc, fieldIsStatic, false, cls, tk)
          == SwapCode(1, DescSize(desc)) + call + SwapCode(DescSize(desc), 1);
    }
  }

  // ----- reference fields: loads -----------------------------------------

  /** The holder pair of `emitLoadFieldACode`: null with kind STATIC for a
      static field; for an instance field, a copy of the holder (found below
      the loaded value) with kind NORMAL, or null with kind THIS when the
      analyzer has `this` uninitialized on top. */
  function LoadHolderPair(fieldIsStatic: bool, holderUninit: bool): Pushed {
    if fieldIsStatic then Pushed(Instrument.SPECIAL_VAL_STATIC, NullObj)
    else if holderUninit then Pushed(Instrument.SPECIAL_VAL_THIS, NullObj)
    else Pushed(Instrument.SPECIAL_VAL_NORMAL, BelowTopObj)
  }

  /** The load the hook reports: `GETSTATIC`, or `DUP` and `GETFIELD`. */
  function LoadFieldCode(h: string, f: string, t: string, fieldIsStatic: bool): seq<Insn> {
    if fieldIsStatic then [Field(GETSTATIC, h, f, t)] else [Dup, Field(GETFIELD, h, f, t)]
  }

  function LoadFieldAPre(h: string, f: string, t: string, fieldIsStatic: bool, holderUninit: bool,
                         cls: string, mname: string): seq<Insn> {
    LoadFieldCode(h, f, t, fieldIsStatic) + KindObjCode(LoadHolderPair(fieldIsStatic, holderUninit))
    + [Ldc(StrC(h)), Ldc(StrC(f)), Ldc(StrC(t)), Ldc(StrC(cls)), Ldc(StrC(mname))]
  }

  const LOAD_FIELD_A_POST := [InvokeStatic(NI, "loadFieldA", LOAD_FIELD_A_DESC, 10)]

  /** `emitLoadFieldACode` for a field of reference type. */
  function LoadFieldACode(h: string, f: string, t: string, fieldIsStatic: bool, holderUninit: bool,
                          cls: string, mname: string, tk: Pushed): seq<Insn> {
    LoadFieldAPre(h, f, t, fieldIsStatic, holderUninit, cls, mname) + KindObjCode(tk) + LOAD_FIELD_A_POST
  }

  /** The value `loadFieldA` receives: the static field, or the holder's
      field. */
  function LoadedValue(h: string, f: string, t: string, fieldIsStatic: bool, holder: Value): Value {
    if fieldIsStatic then StaticV(h, f, t) else FieldV(holder, h, f, t)
  }

  /** The arguments of `loadFieldA`: the loaded value, the holder's kind, the
      holder (null unless it is passed as NORMAL), the holder class, field
      name and type, the caller's class and method, the caller's kind and the
      caller. */
  function LoadFieldAArgs(h: string, f: string, t: string, fieldIsStatic: bool, holderUninit: bool,
                          cls: string, mname: string, tk: Pushed, holder: Value): seq<Value>
    requires Loads(tk.obj)
  {
    var hp := LoadHolderPair(fieldIsStatic, holderUninit);
    [LoadedValue(h, f, t, fieldIsStatic, holder), IntV(hp.kind), if hp.obj == NullObj then NullV else holder,
     StrV(h), StrV(f), StrV(t), StrV(cls), StrV(mname), IntV(tk.kind), ObjValue(tk.obj, Bottom)]
  }

  lemma LoadFieldRun(h: string, f: string, t: string, fieldIsStatic: bool, r: Stack, holder: Value, e: seq<Effect>)
    requires Cat1(holder)
    ensures var s := if fieldIsStatic then r else Push(r, holder);
            Run(LoadFieldCode(h, f, t, fieldIsStatic), Machine(s, e))
             == Some(Machine(Push(s, LoadedValue(h, f, t, fieldIsStatic, holder)), e))
  {
    var s := if fieldIsStatic then r else Push(r, holder);
    var code := LoadFieldCode(h, f, t, fieldIsStatic);
    var m := StepAt(code, 0, Machine(s, e));
    if !fieldIsStatic {
      m := StepAt(code, 1, m);
    }
  }

  /** The code leaves the stack as the load expects it (`.. holder`, or
      anything for a static field) and calls `loadFieldA` with the value the
      load is about to produce. */
  lemma LoadFieldANeutral(h: string, f: string, t: string, fieldIsStatic: bool, holderUninit: bool,
                          cls: string, mname: string, tk: Pushed, r: Stack, holder: Value, e: seq<Effect>)
    requires Loads(tk.obj) && Cat1(holder) && DescSize(t) == 1
    ensures var s := if fieldIsStatic then r else Push(r, holder);
            Run(LoadFieldACode(h, f, t, fieldIsStatic, holderUninit, cls, mname, tk), Machine(s, e))
             == Some(Machine(s, e + [Call(NI, "loadFieldA",
                                      LoadFieldAArgs(h, f, t, fieldIsStatic, holderUninit, cls, mname, tk, holder))]))
  {
    var s := if fieldIsStatic then r else Push(r, holder);
    var v := LoadedValue(h, f, t, fieldIsStatic, holder);
    var hp := LoadHolderPair(fieldIsStatic, holderUninit);
    var a, b := LoadFieldCode(h, f, t, fieldIsStatic), KindObjCode(hp);
    var c := [Ldc(StrC(h)), Ldc(StrC(f)), Ldc(StrC(t)), Ldc(StrC(cls)), Ldc(StrC(mname))];
    var s1 := Push(s, v);
    LoadFieldRun(h, f, t, fieldIsStatic, r, holder, e);
    KindObjCodePushes(hp, s1, e);
    var hv := ObjValue(hp.obj, s1);
    var s2 := Push(Push(s1, IntV(hp.kind)), hv);
    RunThen(a, b, Machine(s, e), Machine(s1, e));
    Ldc5Run(StrC(h), StrC(f), StrC(t), StrC(cls), StrC(mname), s2, e);
    var s3 := Push(Push(Push(Push(Push(s2, StrV(h)), StrV(f)), StrV(t)), StrV(cls)), StrV(mname));
    RunThen(a + b, c, Machine(s, e), Machine(s2, e));
    RunAround(a + b + c, tk, LOAD_FIELD_A_POST, Machine(s, e), Machine(s3, e));
    var o := ObjValue(tk.obj, Bottom);
    Pops10(s, v, IntV(hp.kind), hv, StrV(h), StrV(f), StrV(t), StrV(cls), StrV(mname), IntV(tk.kind), o);
    InvokeRun(NI, "loadFieldA", LOAD_FIELD_A_DESC, 10, Push(Push(s3, IntV(tk.kind)), o), s,
              LoadFieldAArgs(h, f, t, fieldIsStatic, holderUninit, cls, mname, tk, holder), e);
  }

  // ----- reference fields: stores ----------------------------------------

  /** `.. v` becomes `.. v, kind, null, v`: the holder is passed as null. */
  function NullHolderCode(kind: int): seq<Insn> {
    [Dup, AconstNull, Swap, Ldc(IntC(kind)), DupX2, Pop]
  }

  /** `.. h, v` becomes `.. h, v, NORMAL, h, v`. */
  function CopyHolderCode(): seq<Insn> {
    [Dup2, Ldc(IntC(Instrument.SPECIAL_VAL_NORMAL)), DupX2, Pop]
  }

  /** The holder part of `emitStoreFieldACode`. */
  function StoreHolderCode(fieldIsStatic: bool, newValUninit: bool): seq<Insn> {
    if fieldIsStatic then NullHolderCode(Instrument.SPECIAL_VAL_STATIC)
    else if newValUninit then NullHolderCode(Instrument.SPECIAL_VAL_THIS)
    else CopyHolderCode()
  }

  /** The old value: the static field, null inside a constructor, or the
      field of the holder copy. */
  function OldValueCode(owner: string, name: string, desc: string, fieldIsStatic: bool, inInit: bool): seq<Insn> {
    if fieldIsStatic then [Field(GETSTATIC, owner, name, desc)]
    else if inInit then [AconstNull]
    else [Dup2, Pop, Field(GETFIELD, owner, name, desc)]
  }

  function StoreFieldAPre(owner: string, name: string, desc: string, fieldIsStatic: bool, newValUninit: bool,
                          inInit: bool, cls: string, mname: string): seq<Insn> {
    StoreHolderCode(fieldIsStatic, newValUninit) + OldValueCode(owner, name, desc, fieldIsStatic, inInit)
    + [Ldc(StrC(owner)), Ldc(StrC(name)), Ldc(StrC(desc)), Ldc(StrC(cls)), Ldc(StrC(mname))]
  }

  const STORE_FIELD_A_POST := [InvokeStatic(NI, "storeFieldA", STORE_FIELD_A_DESC, 11)]

  /** `emitStoreFieldACode` for a field of reference type. */
  function StoreFieldACode(owner: string, name: string, desc: string, fieldIsStatic: bool, newValUninit: bool,
                           inInit: bool, cls: string, mname: string, tk: Pushed): seq<Insn> {
    StoreFieldAPre(owner, name, desc, fieldIsStatic, newValUninit, inInit, cls, mname) + KindObjCode(tk)
    + STORE_FIELD_A_POST
  }

  /** The holder's kind as `storeFieldA` receives it. */
  function StoreHolderKind(fieldIsStatic: bool, newValUninit: bool): int {
    if fieldIsStatic then Instrument.SPECIAL_VAL_STATIC
    else if newValUninit then Instrument.SPECIAL_VAL_THIS
    else Instrument.SPECIAL_VAL_NORMAL
  }

  /** The holder as `storeFieldA` receives it: null unless passed as NORMAL. */
  function StoreHolderValue(fieldIsStatic: bool, newValUninit: bool, holder: Value): Value {
    if fieldIsStatic || newValUninit then NullV else holder
  }

  /** The old value `storeFieldA` receives. */
  function OldValue(owner: string, name: string, desc: string, fieldIsStatic: bool, inInit: bool,
                    holderValue: Value): Value {
    if fieldIsStatic then StaticV(owner, name, desc)
    else if inInit then NullV
    else FieldV(holderValue, owner, name, desc)
  }

  /** The arguments of `storeFieldA`: the holder's kind, the holder, the new
      and the old value, the field's owner, name and type, the caller's class
      and method, the caller's kind and the caller. */
  function StoreFieldAArgs(owner: string, name: string, desc: string, fieldIsStatic: bool, newValUninit: bool,
                           inInit: bool, cls: string, mname: string, tk: Pushed, holder: Value,
                           val: Value): seq<Value>
    requires Loads(tk.obj)
  {
    var hv := StoreHolderValue(fieldIsStatic, newValUninit, holder);
    [IntV(StoreHolderKind(fieldIsStatic, newValUninit)), hv, val,
     OldValue(owner, name, desc, fieldIsStatic, inInit, hv),
     StrV(owner), StrV(name), StrV(desc), StrV(cls), StrV(mname), IntV(tk.kind), ObjValue(tk.obj, Bottom)]
  }

  lemma NullHolderRun(kind: int, r: Stack, v: Value, e: seq<Effect>)
    requires Cat1(v)
    ensures Run(NullHolderCode(kind), Machine(Push(r, v), e))
         == Some(Machine(Push(Push(Push(Push(r, v), IntV(kind)), NullV), v), e))
  {
    var a, b := [Dup, AconstNull, Swap], [Ldc(IntC(kind)), DupX2, Pop];
    var m := StepAt(a, 0, Machine(Push(r, v), e));
    m := StepAt(a, 1, m);
    m := StepAt(a, 2, m);
    RunThen(a, b, Machine(Push(r, v), e), m);
    m := StepAt(b, 0, m);
    m := StepAt(b, 1, m);
    m := StepAt(b, 2, m);
    assert NullHolderCode(kind) == a + b;
  }

  lemma CopyHolderRun(r: Stack, h: Value, v: Value, e: seq<Effect>)
    requires Cat1(h) && Cat1(v)
    ensures Run(CopyHolderCode(), Machine(Push(Push(r, h), v), e))
         == Some(Machine(Push(Push(Push(Push(Push(r, h), v), IntV(Instrument.SPECIAL_VAL_NORMAL)), h), v), e))
  {
    var code := CopyHolderCode();
    var m := StepAt(code, 0, Machine(Push(Push(r, h), v), e));
    m := StepAt(code, 1, m);
    m := StepAt(code, 2, m);
    m := StepAt(code, 3, m);
  }

  lemma OldValueRun(owner: string, name: string, desc: string, fieldIsStatic: bool, inInit: bool,
                    r: Stack, hv: Value, v: Value, e: seq<Effect>)
    requires Cat1(hv) && Cat1(v)
    ensures Run(OldValueCode(owner, name, desc, fieldIsStatic, inInit), Machine(Push(Push(r, hv), v), e))
         == Some(Machine(Push(Push(Push(r, hv), v), OldValue(owner, name, desc, fieldIsStatic, inInit, hv)), e))
  {
    var code := OldValueCode(owner, name, desc, fieldIsStatic, inInit);
    var m := StepAt(code, 0, Machine(Push(Push(r, hv), v), e));
    if !fieldIsStatic && !inInit {
      m := StepAt(code, 1, m);
      m := StepAt(code, 2, m);
    }
  }

  /** The holder part leaves the stack in place and adds the holder's kind,
      the holder and the new value. */
  lemma StoreHolderRun(fieldIsStatic: bool, newValUninit: bool, r: Stack, holder: Value, val: Value,
                       e: seq<Effect>)
    requires Cat1(holder) && Cat1(val)
    ensures var s := if fieldIsStatic then Push(r, val) else Push(Push(r, holder), val);
            Run(StoreHolderCode(fieldIsStatic, newValUninit), Machine(s, e))
             == Some(Machine(Push(Push(Push(s, IntV(StoreHolderKind(fieldIsStatic, newValUninit))),
                                   StoreHolderValue(fieldIsStatic, newValUninit, holder)), val), e))
  {
    if fieldIsStatic {
      NullHolderRun(Instrument.SPECIAL_VAL_STATIC, r, val, e);
    } else if newValUninit {
      NullHolderRun(Instrument.SPECIAL_VAL_THIS, Push(r, holder), val, e);
    } else {
      CopyHolderRun(r, holder, val, e);
    }
  }

  /** The code leaves the stack as the store expects it (`.. holder, newVal`,
      or `.. newVal` for a static field) and calls `storeFieldA` with the new
      value and the value the field held before. */
  lemma StoreFieldANeutral(owner: string, name: string, desc: string, fieldIsStatic: bool, newValUninit: bool,
                           inInit: bool, cls: string, mname: string, tk: Pushed, r: Stack, holder: Value,
                           val: Value, e: seq<Effect>)
    requires Loads(tk.obj) && Cat1(holder) && Cat1(val)
    ensures var s := if fieldIsStatic then Push(r, val) else Push(Push(r, holder), val);
            Run(StoreFieldACode(owner, name, desc, fieldIsStatic, newValUninit, inInit, cls, mname, tk), Machine(s, e))
             == Some(Machine(s, e + [Call(NI, "storeFieldA", StoreFieldAArgs(owner, name, desc, fieldIsStatic,
                                                                          newValUninit, inInit, cls, mname, tk,
                                                                          holder, val))]))
  {
    var s := if fieldIsStatic then Push(r, val) else Push(Push(r, holder), val);
    var hk := IntV(StoreHolderKind(fieldIsStatic, newValUninit));
    var hv := StoreHolderValue(fieldIsStatic, newValUninit, holder);
    var ov := OldValue(owner, name, desc, fieldIsStatic, inInit, hv);
    var a, b := StoreHolderCode(fieldIsStatic, newValUninit), OldValueCode(owner, name, desc, fieldIsStatic, inInit);
    var c := [Ldc(StrC(owner)), Ldc(StrC(name)), Ldc(StrC(desc)), Ldc(StrC(cls)), Ldc(StrC(mname))];
    StoreHolderRun(fieldIsStatic, newValUninit, r, holder, val, e);
    var s1 := Push(Push(Push(s, hk), hv), val);
    OldValueRun(owner, name, desc, fieldIsStatic, inInit, Push(s, hk), hv, val, e);
    var s2 := Push(s1, ov);
    RunThen(a, b, Machine(s, e), Machine(s1, e));
    Ldc5Run(StrC(owner), StrC(name), StrC(desc), StrC(cls), StrC(mname), s2, e);
    var s3 := Push(Push(Push(Push(Push(s2, StrV(owner)), StrV(name)), StrV(desc)), StrV(cls)), StrV(mname));
    RunThen(a + b, c, Machine(s, e), Machine(s2, e));
    RunAround(a + b + c, tk, STORE_FIELD_A_POST, Machine(s, e), Machine(s3, e));
    var o := ObjValue(tk.obj, Bottom);
    Pops11(s, hk, hv, val, ov, StrV(owner), StrV(name), StrV(desc), StrV(cls), StrV(mname), IntV(tk.kind), o);
    InvokeRun(NI, "storeFieldA", STORE_FIELD_A_DESC, 11, Push(Push(s3, IntV(tk.kind)), o), s,
              StoreFieldAArgs(owner, name, desc, fieldIsStatic, newValUninit, inInit, cls, mname, tk, holder, val), e);
  }

  // ----- visitInsn ---------------------------------------------------------

  predicate IsPrimitiveArrayLoad(opcode: int) {
    opcode in {IALOAD, LALOAD, FALOAD, DALOAD, BALOAD, CALOAD, SALOAD}
  }

  predicate IsPrimitiveArrayStore(opcode: int) {
    opcode in {IASTORE, LASTORE, FASTORE, DASTORE, BASTORE, CASTORE, SASTORE}
  }

  /** The slots the stored value occupies: two for long and double. */
  function StoredSize(opcode: int): nat {
    if opcode == LASTORE || opcode == DASTORE then 2 else 1
  }

  /** What `emitLoadArrayPrimitive` emits: `pushThisKindAndObj` may throw
      after `DUP2`. */
  function LoadArrayPrimitiveEmission(info: MethodInfo, frame: Frame): Emission {
    Around([Dup2], ThisKindAndObj(info, frame), LoadArrayPrimitivePost(info.className))
  }

  function StoreArrayPrimitiveEmission(info: MethodInfo, frame: Frame, valSize: nat): Emission {
    Around(ValBelowCode(valSize) + [Dup2], ThisKindAndObj(info, frame), StoreArrayPrimitivePost(info.className, valSize))
  }

  /** What `emitStoreArrayA` emits: nothing when the array class cannot be
      determined, else the copies and the strings, up to the caller pair. */
  function StoreArrayAEmission(info: MethodInfo, frame: Frame, downstream: Option<Frame>): Emission {
    match ArrayHolder(downstream, 3)
    case Err(ex) => Emission([], Some(ex))
    case Ok(h) => Around(StoreArrayAPre(h, info.name, info.className), ThisKindAndObj(info, frame), STORE_ARRAY_A_POST)
  }

  function LoadArrayAEmission(info: MethodInfo, frame: Frame, downstream: Option<Frame>): Emission {
    match ArrayHolder(downstream, 2)
    case Err(ex) => Emission([], Some(ex))
    case Ok(h) => Around(LoadArrayAPre(h, info.name, info.className), ThisKindAndObj(info, frame), LOAD_ARRAY_A_POST)
  }

  /** The `switch` of `visitInsn`, before the instruction is forwarded. */
  function ArrayAccessEmission(info: MethodInfo, frame: Frame, downstream: Option<Frame>, opcode: int): Emission {
    if opcode == AASTORE then StoreArrayAEmission(info, frame, downstream)
    else if IsPrimitiveArrayStore(opcode) then StoreArrayPrimitiveEmission(info, frame, StoredSize(opcode))
    else if opcode == AALOAD then LoadArrayAEmission(info, frame, downstream)
    else if IsPrimitiveArrayLoad(opcode) then LoadArrayPrimitiveEmission(info, frame)
    else Emission([], None)
  }

  /** `visitInsn(opcode)`: the hook code, then the instruction itself. */
  function VisitInsnEmission(info: MethodInfo, frame: Frame, downstream: Option<Frame>, opcode: int): Emission {
    Then(ArrayAccessEmission(info, frame, downstream, opcode), [InsnOf(opcode)])
  }

  /** An instruction that touches no array is forwarded alone. */
  lemma VisitInsnForwardsOthers(info: MethodInfo, frame: Frame, downstream: Option<Frame>, opcode: int)
    requires opcode != AASTORE && opcode != AALOAD
    requires !IsPrimitiveArrayLoad(opcode) && !IsPrimitiveArrayStore(opcode)
    ensures VisitInsnEmission(info, frame, downstream, opcode) == Emission([InsnOf(opcode)], None)
  {
  }

  /** Instrumenting a primitive array load: it fails exactly when the caller
      pair cannot be computed, and otherwise the code before the forwarded
      load keeps `.. arr, idx` and logs `readArray`. */
  lemma PrimitiveArrayLoadTransparent(info: MethodInfo, frame: Frame, downstream: Option<Frame>, opcode: int,
                                      r: Stack, arr: Value, idx: Value, e: seq<Effect>)
    requires IsPrimitiveArrayLoad(opcode) && Cat1(arr) && Cat1(idx)
    ensures var em := VisitInsnEmission(info, frame, downstream, opcode);
            (em.thrown.None? <==> ThisKindAndObj(info, frame).Ok?)
            && (em.thrown.None? ==>
                  var tk := ThisKindAndObj(info, frame).value;
                  var code := LoadArrayPrimitiveCode(info.className, tk);
                  em.code == code + [InsnOf(opcode)]
                  && Run(code, Machine(Push(Push(r, arr), idx), e))
                     == Some(Machine(Push(Push(r, arr), idx),
                                     e + [Call(NI, "readArray", [arr, idx, IntV(tk.kind), ObjValue(tk.obj, Bottom),
                                                                 StrV(info.className)])])))
  {
    if ThisKindAndObj(info, frame).Ok? {
      LoadArrayPrimitiveNeutral(info.className, ThisKindAndObj(info, frame).value, r, arr, idx, e);
    }
  }

  /** Instrumenting a primitive array store, whose value has the size the
      opcode says. */
  lemma PrimitiveArrayStoreTransparent(info: MethodInfo, frame: Frame, downstream: Option<Frame>, opcode: int,
                                       r: Stack, arr: Value, idx: Value, val: Value, e: seq<Effect>)
    requires IsPrimitiveArrayStore(opcode) && Cat1(arr) && Cat1(idx) && Size(val) == StoredSize(opcode)
    ensures var em := VisitInsnEmission(info, frame, downstream, opcode);
            (em.thrown.None? <==> ThisKindAndObj(info, frame).Ok?)
            && (em.thrown.None? ==>
                  var tk := ThisKindAndObj(info, frame).value;
                  var code := StoreArrayPrimitiveCode(info.className, tk, Size(val));
                  em.code == code + [InsnOf(opcode)]
                  && Run(code, Machine(Push(Push(Push(r, arr), idx), val), e))
                     == Some(Machine(Push(Push(Push(r, arr), idx), val),
                                     e + [Call(NI, "modifyArray", [arr, idx, IntV(tk.kind), ObjValue(tk.obj, Bottom),
                                                                   StrV(info.className)])])))
  {
    if ThisKindAndObj(info, frame).Ok? {
      StoreArrayPrimitiveNeutral(info.className, ThisKindAndObj(info, frame).value, r, arr, idx, val, e);
    }
  }

  /** Instrumenting `AALOAD`: it fails exactly when the array class or the
      caller pair cannot be computed; otherwise the code before the load
      keeps `.. arr, idx` and logs `loadArrayA` with the element about to be
      loaded. */
  lemma AaloadTransparent(info: MethodInfo, frame: Frame, downstream: Option<Frame>,
                          r: Stack, arr: Value, idx: Value, e: seq<Effect>)
    requires Cat1(arr) && Cat1(idx)
    ensures var em := VisitInsnEmission(info, frame, downstream, AALOAD);
            (em.thrown.None? <==> ArrayHolder(downstream, 2).Ok? && ThisKindAndObj(info, frame).Ok?)
            && (em.thrown.None? ==>
                  var tk := ThisKindAndObj(info, frame).value;
                  var h := ArrayHolder(downstream, 2).value;
                  var code := LoadArrayACode(h, info.name, info.className, tk);
                  em.code == code + [Aaload]
                  && Run(code, Machine(Push(Push(r, arr), idx), e))
                     == Some(Machine(Push(Push(r, arr), idx),
                                     e + [Call(NI, "loadArrayA", [arr, idx, ElemV(arr, idx), StrV(h), StrV(info.name),
                                                                  StrV(info.className), IntV(tk.kind),
                                                                  ObjValue(tk.obj, Bottom)])])))
  {
    if ArrayHolder(downstream, 2).Ok? && ThisKindAndObj(info, frame).Ok? {
      LoadArrayANeutral(ArrayHolder(downstream, 2).value, info.name, info.className,
                        ThisKindAndObj(info, frame).value, r, arr, idx, e);
    }
  }

  /** Instrumenting `AASTORE`: the code before the store keeps
      `.. arr, idx, newVal` and logs `storeArrayA` with the element about to
      be overwritten. */
  lemma AastoreTransparent(info: MethodInfo, frame: Frame, downstream: Option<Frame>,
                           r: Stack, arr: Value, idx: Value, val: Value, e: seq<Effect>)
    requires Cat1(arr) && Cat1(idx) && Cat1(val)
    ensures var em := VisitInsnEmission(info, frame, downstream, AASTORE);
            (em.thrown.None? <==> ArrayHolder(downstream, 3).Ok? && ThisKindAndObj(info, frame).Ok?)
            && (em.thrown.None? ==>
                  var tk := ThisKindAndObj(info, frame).value;
                  var h := ArrayHolder(downstream, 3).value;
                  var code := StoreArrayACode(h, info.name, info.className, tk);
                  em.code == code + [Aastore]
                  && Run(code, Machine(Push(Push(Push(r, arr), idx), val), e))
                     == Some(Machine(Push(Push(Push(r, arr), idx), val),
                                     e + [Call(NI, "storeArrayA", [val, arr, idx, ElemV(arr, idx), StrV(h),
                                                                   StrV(info.name), StrV(info.className),
                                                                   IntV(tk.kind), ObjValue(tk.obj, Bottom)])])))
  {
    if ArrayHolder(downstream, 3).Ok? && ThisKindAndObj(info, frame).Ok? {
      StoreArrayANeutral(ArrayHolder(downstream, 3).value, info.name, info.className,
                         ThisKindAndObj(info, frame).value, r, arr, idx, val, e);
    }
  }

  // ----- visitFieldInsn ----------------------------------------------------

  /** What `emitReadModifyCode` emits.  For a `PUTFIELD` the top of the
      analyzer's stack is read (for a comment) before anything is emitted. */
  function ReadModifyEmission(info: MethodInfo, frame: Frame, owner: string, name: string, desc: string,
                              fieldIsStatic: bool, read: bool): Emission {
    if SwapsNewValue(fieldIsStatic, read) && frame.stack.None? then Emission([], Some(NullPointer))
    else if SwapsNewValue(fieldIsStatic, read) && |frame.stack.value| == 0 then Emission([], Some(IndexOutOfBounds))
    else Around(ReadModifyPre(owner, name, desc, fieldIsStatic, read), ThisKindAndObj(info, frame),
                ReadModifyPost(desc, fieldIsStatic, read, info.className))
  }

  /** What `emitLoadFieldACode` emits; for an instance field the top of the
      analyzer's stack (the holder) decides the holder pair. */
  function LoadFieldAEmission(info: MethodInfo, frame: Frame, h: string, f: string, t: string,
                              fieldIsStatic: bool): Emission {
    var tk := ThisKindAndObj(info, frame);
    if fieldIsStatic then
      Around(LoadFieldAPre(h, f, t, true, false, info.className, info.name), tk, LOAD_FIELD_A_POST)
    else match frame.stack
      case None => Emission([], Some(NullPointer))
      case Some(st) =>
        if |st| == 0 then Emission([], Some(IndexOutOfBounds))
        else Around(LoadFieldAPre(h, f, t, false, st[|st| - 1] == UninitializedThis, info.className, info.name),
                    tk, LOAD_FIELD_A_POST)
  }

  /** The type of the new value, read from the downstream analyzer's stack
      (`((AnalyzerAdapter) mv).stack`). */
  function DownstreamTop(downstream: Option<Frame>): (r: Result<FrameType>)
    ensures r.Ok? <==> downstream.Some? && downstream.value.stack.Some? && |downstream.value.stack.value| > 0
  {
    match downstream
    case None => Err(ClassCast)
    case Some(f) =>
      match f.stack
      case None => Err(NullPointer)
      case Some(st) => if |st| == 0 then Err(IndexOutOfBounds) else Ok(st[|st| - 1])
  }

  /** Whether the old value of an instance field can be read: inside a
      constructor it is passed as null; elsewhere the holder, second from the
      top of the analyzer's stack, must not be an uninitialized `this`. */
  function OldValueCheck(info: MethodInfo, frame: Frame): (r: Option<JavaException>)
    ensures r.None? <==> info.name == "<init>" ||
                         (frame.stack.Some? && |frame.stack.value| >= 2
                          && frame.stack.value[|frame.stack.value| - 2] != UninitializedThis)
  {
    if info.name == "<init>" then None
    else match frame.stack
      case None => Some(NullPointer)
      case Some(st) =>
        if |st| < 2 then Some(IndexOutOfBounds)
        else if st[|st| - 2] == UninitializedThis then Some(Runtime("can't instrument putfield's old_val (is `this`)"))
        else None
  }

  /** What `emitStoreFieldACode` emits.  For an instance field the holder
      part is emitted before the old value is checked, so it is emitted even
      when that check throws. */
  function StoreFieldAEmission(info: MethodInfo, frame: Frame, downstream: Option<Frame>, owner: string,
                               name: string, desc: string, fieldIsStatic: bool): Emission {
    var tk := ThisKindAndObj(info, frame);
    if fieldIsStatic then
      Around(StoreFieldAPre(owner, name, desc, true, false, false, info.className, info.name), tk, STORE_FIELD_A_POST)
    else match DownstreamTop(downstream)
      case Err(ex) => Emission([], Some(ex))
      case Ok(top) =>
        var uninit := top == UninitializedThis;
        match OldValueCheck(info, frame)
        case Some(ex) => Emission(StoreHolderCode(false, uninit), Some(ex))
        case None =>
          Around(StoreFieldAPre(owner, name, desc, false, uninit, info.name == "<init>", info.className, info.name),
                 tk, STORE_FIELD_A_POST)
  }

  /** The `switch` of `visitFieldInsn`: fields whose name contains '$'
      (synthetic) and unreachable instructions are left alone; a load of a
      reference field while the analyzer's stack starts with an uninitialized
      `this` is not reported. */
  function FieldAccessEmission(info: MethodInfo, frame: Frame, downstream: Option<Frame>, opcode: int,
                               owner: string, name: string, desc: string): Emission {
    if Contains(name, "$") || frame.stack.None? then Emission([], None)
    else if opcode == GETSTATIC || opcode == GETFIELD then
      var st := frame.stack.value;
      match InstrumentationVisitor.IsReferenceType(desc)
      case Err(ex) => Emission([], Some(ex))
      case Ok(isRef) =>
        if !isRef then ReadModifyEmission(info, frame, owner, name, desc, opcode == GETSTATIC, true)
        else if |st| == 0 || st[0] != UninitializedThis then
          LoadFieldAEmission(info, frame, owner, name, desc, opcode == GETSTATIC)
        else Emission([], None)
    else if opcode == PUTSTATIC || opcode == PUTFIELD then
      match InstrumentationVisitor.IsReferenceType(desc)
      case Err(ex) => Emission([], Some(ex))
      case Ok(isRef) =>
        if isRef then StoreFieldAEmission(info, frame, downstream, owner, name, desc, opcode == PUTSTATIC)
        else ReadModifyEmission(info, frame, owner, name, desc, opcode == PUTSTATIC, false)
    else Emission([], None)
  }

  /** `visitFieldInsn`: the hook code, then the instruction itself. */
  function VisitFieldInsnEmission(info: MethodInfo, frame: Frame, downstream: Option<Frame>, opcode: int,
                                  owner: string, name: string, desc: string): Emission {
    Then(FieldAccessEmission(info, frame, downstream, opcode, owner, name, desc), [Field(opcode, owner, name, desc)])
  }

  /** Synthetic fields and unreachable instructions are forwarded alone. */
  lemma VisitFieldInsnSkips(info: MethodInfo, frame: Frame, downstream: Option<Frame>, opcode: int,
                            owner: string, name: string, desc: string)
    requires Contains(name, "$") || frame.stack.None?
    ensures VisitFieldInsnEmission(info, frame, downstream, opcode, owner, name, desc)
         == Emission([Field(opcode, owner, name, desc)], None)
  {
  }

  /** A reference descriptor names a one-slot value. */
  lemma ReferenceDescSize(desc: string)
    requires InstrumentationVisitor.IsReferenceType(desc) == Ok(true)
    ensures DescSize(desc) == 1
  {
    assert desc[0] == 'L' || desc[0] == '[';
  }

  /** Instrumenting a read of a primitive field: it fails exactly when the
      caller pair cannot be computed; otherwise the code before the forwarded
      `GETSTATIC`/`GETFIELD` keeps the stack and logs `read`. */
  lemma PrimitiveFieldReadTransparent(info: MethodInfo, frame: Frame, downstream: Option<Frame>, opcode: int,
                                      owner: string, name: string, desc: string,
                                      r: Stack, callee: Value, e: seq<Effect>)
    requires opcode == GETSTATIC || opcode == GETFIELD
    requires !Contains(name, "$") && frame.stack.Some?
    requires InstrumentationVisitor.IsReferenceType(desc) == Ok(false) && Cat1(callee)
    ensures var em := VisitFieldInsnEmission(info, frame, downstream, opcode, owner, name, desc);
            var fieldIsStatic := opcode == GETSTATIC;
            var s := if fieldIsStatic then r else Push(r, callee);
            (em.thrown.None? <==> ThisKindAndObj(info, frame).Ok?)
            && (em.thrown.None? ==>
                  var tk := ThisKindAndObj(info, frame).value;
                  var code := ReadModifyCode(owner, name, desc, fieldIsStatic, true, info.className, tk);
                  em.code == code + [Field(opcode, owner, name, desc)]
                  && Run(code, Machine(s, e))
                     == Some(Machine(s, e + [Call(NI, "read", ReadModifyArgs(fieldIsStatic, callee, owner, name,
                                                                             info.className, tk))])))
  {
    if ThisKindAndObj(info, frame).Ok? {
      ReadNeutral(owner, name, desc, opcode == GETSTATIC, info.className, ThisKindAndObj(info, frame).value,
                  r, callee, e);
    }
  }

  /** Instrumenting a write of a primitive field: a `PUTFIELD` on an empty
      analyzer stack fails too. */
  lemma PrimitiveFieldWriteTransparent(info: MethodInfo, frame: Frame, downstream: Option<Frame>, opcode: int,
                                       owner: string, name: string, desc: string,
                                       r: Stack, callee: Value, val: Value, e: seq<Effect>)
    requires opcode == PUTSTATIC || opcode == PUTFIELD
    requires !Contains(name, "$") && frame.stack.Some?
    requires InstrumentationVisitor.IsReferenceType(desc) == Ok(false) && Cat1(callee) && Size(val) == DescSize(desc)
    ensures var em := VisitFieldInsnEmission(info, frame, downstream, opcode, owner, name, desc);
            var fieldIsStatic := opcode == PUTSTATIC;
            var s := if fieldIsStatic then Push(r, val) else Push(Push(r, callee), val);
            (em.thrown.None? <==> ThisKindAndObj(info, frame).Ok? && (fieldIsStatic || |frame.stack.value| > 0))
            && (em.thrown.None? ==>
                  var tk := ThisKindAndObj(info, frame).value;
                  var code := ReadModifyCode(owner, name, desc, fieldIsStatic, false, info.className, tk);
                  em.code == code + [Field(opcode, owner, name, desc)]
                  && Run(code, Machine(s, e))
                     == Some(Machine(s, e + [Call(NI, "modify", ReadModifyArgs(fieldIsStatic, callee, owner, name,
                                                                               info.className, tk))])))
  {
    if ThisKindAndObj(info, frame).Ok? {
      ModifyNeutral(owner, name, desc, opcode == PUTSTATIC, info.className, ThisKindAndObj(info, frame).value,
                    r, callee, val, e);
    }
  }

  /** Instrumenting a read of a reference field: skipped while the analyzer's
      stack starts with an uninitialized `this`; otherwise it fails exactly
      when the caller pair or (for `GETFIELD`) the holder's type cannot be
      read, and the code before the forwarded load keeps the stack and logs
      `loadFieldA` with the value about to be loaded. */
  lemma ReferenceFieldReadTransparent(info: MethodInfo, frame: Frame, downstream: Option<Frame>, opcode: int,
                                      owner: string, name: string, desc: string,
                                      r: Stack, holder: Value, e: seq<Effect>)
    requires opcode == GETSTATIC || opcode == GETFIELD
    requires !Contains(name, "$") && frame.stack.Some?
    requires InstrumentationVisitor.IsReferenceType(desc) == Ok(true) && Cat1(holder)
    ensures var em := VisitFieldInsnEmission(info, frame, downstream, opcode, owner, name, desc);
            var st := frame.stack.value;
            var fieldIsStatic := opcode == GETSTATIC;
            var s := if fieldIsStatic then r else Push(r, holder);
            (|st| > 0 && st[0] == UninitializedThis ==> em == Emission([Field(opcode, owner, name, desc)], None))
            && (|st| == 0 || st[0] != UninitializedThis ==>
                  (em.thrown.None? <==> ThisKindAndObj(info, frame).Ok? && (fieldIsStatic || |st| > 0))
                  && (em.thrown.None? ==>
                        var tk := ThisKindAndObj(info, frame).value;
                        var uninit := !fieldIsStatic && st[|st| - 1] == UninitializedThis;
                        var code := LoadFieldACode(owner, name, desc, fieldIsStatic, uninit, info.className,
                                                   info.name, tk);
                        em.code == code + [Field(opcode, owner, name, desc)]
                        && Run(code, Machine(s, e))
                           == Some(Machine(s, e + [Call(NI, "loadFieldA",
                                                        LoadFieldAArgs(owner, name, desc, fieldIsStatic, uninit,
                                                                       info.className, info.name, tk, holder))]))))
  {
    var st := frame.stack.value;
    var fieldIsStatic := opcode == GETSTATIC;
    if (|st| == 0 || st[0] != UninitializedThis) && ThisKindAndObj(info, frame).Ok? && (fieldIsStatic || |st| > 0) {
      ReferenceDescSize(desc);
      var uninit := !fieldIsStatic && st[|st| - 1] == UninitializedThis;
      LoadFieldANeutral(owner, name, desc, fieldIsStatic, uninit, info.className, info.name,
                        ThisKindAndObj(info, frame).value, r, holder, e);
    }
  }

  /** Instrumenting a write of a reference field: for `PUTFIELD` the new
      value's type must be readable downstream and, outside a constructor,
      the holder must be initialised; then the code before the forwarded
      store keeps the stack and logs `storeFieldA` with the new value and the
      field's old value. */
  lemma ReferenceFieldWriteTransparent(info: MethodInfo, frame: Frame, downstream: Option<Frame>, opcode: int,
                                       owner: string, name: string, desc: string,
                                       r: Stack, holder: Value, val: Value, e: seq<Effect>)
    requires opcode == PUTSTATIC || opcode == PUTFIELD
    requires !Contains(name, "$") && frame.stack.Some?
    requires InstrumentationVisitor.IsReferenceType(desc) == Ok(true) && Cat1(holder) && Cat1(val)
    ensures var em := VisitFieldInsnEmission(info, frame, downstream, opcode, owner, name, desc);
            var st := frame.stack.value;
            var fieldIsStatic := opcode == PUTSTATIC;
            var inInit := info.name == "<init>";
            var s := if fieldIsStatic then Push(r, val) else Push(Push(r, holder), val);
            (em.thrown.None? <==>
               ThisKindAndObj(info, frame).Ok?
               && (fieldIsStatic
                   || (DownstreamTop(downstream).Ok? && (inInit || (|st| >= 2 && st[|st| - 2] != UninitializedThis)))))
            && (em.thrown.None? ==>
                  var tk := ThisKindAndObj(info, frame).value;
                  var uninit := !fieldIsStatic && DownstreamTop(downstream).value == UninitializedThis;
                  var code := StoreFieldACode(owner, name, desc, fieldIsStatic, uninit, !fieldIsStatic && inInit,
                                              info.className, info.name, tk);
                  em.code == code + [Field(opcode, owner, name, desc)]
                  && Run(code, Machine(s, e))
                     == Some(Machine(s, e + [Call(NI, "storeFieldA",
                                                  StoreFieldAArgs(owner, name, desc, fieldIsStatic, uninit,
                                                                  !fieldIsStatic && inInit, info.className,
                                                                  info.name, tk, holder, val))])))
  {
    var fieldIsStatic := opcode == PUTSTATIC;
    var em := VisitFieldInsnEmission(info, frame, downstream, opcode, owner, name, desc);
    if em.thrown.None? {
      var uninit := !fieldIsStatic && DownstreamTop(downstream).value == UninitializedThis;
      StoreFieldANeutral(owner, name, desc, fieldIsStatic, uninit, !fieldIsStatic && info.name == "<init>",
                         info.className, info.name, ThisKindAndObj(info, frame).value, r, holder, val, e);
    }
  }

  // ----- the visitor -----------------------------------------------------

  /** A `FieldMV`: the `InstrumentationMV` state it extends (the method, the
      upstream analyzer's frame, the emitted events) and the frame of the
      visitor it forwards to, `None` when that visitor is no
      `AnalyzerAdapter`. */
  class FieldMV {
    const base: InstrumentationMV
    var downstream: Option<Frame>

    constructor(base: InstrumentationMV, downstream: Option<Frame>)
      ensures this.base == base && this.downstream == downstream
    {
      this.base := base;
      this.downstream := downstream;
    }

    /** `emitLoadArrayPrimitive`. */
    method EmitLoadArrayPrimitive() returns (thrown: Option<JavaException>)
      modifies base`out
      ensures thrown == LoadArrayPrimitiveEmission(base.info, base.frame).thrown
      ensures base.out == old(base.out) + LoadArrayPrimitiveEmission(base.info, base.frame).code
    {
      base.Emit(Dup2);
      thrown := base.PushThisKindAndObj();
      if thrown.Some? {
        return;
      }
      base.PushCallerClassStr();
      base.Emit(InvokeStatic(NI, "readArray", ARRAY_HOOK_DESC, 5));
    }

    /** `emitStoreArrayPrimitive(valSize)`. */
    method EmitStoreArrayPrimitive(valSize: nat) returns (thrown: Option<JavaException>)
      modifies base`out
      ensures thrown == StoreArrayPrimitiveEmission(base.info, base.frame, valSize).thrown
      ensures base.out == old(base.out) + StoreArrayPrimitiveEmission(base.info, base.frame, valSize).code
    {
      base.EmitCode(ValBelowCode(valSize));
      base.Emit(Dup2);
      thrown := base.PushThisKindAndObj();
      if thrown.Some? {
        return;
      }
      base.PushCallerClassStr();
      base.Emit(InvokeStatic(NI, "modifyArray", ARRAY_HOOK_DESC, 5));
      base.EmitCode(ValAboveCode(valSize));
    }

    /** `emitStoreArrayA`: the array class is looked up before anything is
        emitted. */
    method EmitStoreArrayA() returns (thrown: Option<JavaException>)
      modifies base`out
      ensures thrown == StoreArrayAEmission(base.info, base.frame, downstream).thrown
      ensures base.out == old(base.out) + StoreArrayAEmission(base.info, base.frame, downstream).code
    {
      var holderClass := ArrayHolder(downstream, 3);
      if holderClass.Err? {
        return Some(holderClass.error);
      }
      base.EmitCode(StoreArrayAPre(holderClass.value, base.info.name, base.info.className));
      thrown := base.PushThisKindAndObj();
      if thrown.Some? {
        return;
      }
      base.EmitCode(STORE_ARRAY_A_POST);
    }

    /** `emitLoadArrayA`. */
    method EmitLoadArrayA() returns (thrown: Option<JavaException>)
      modifies base`out
      ensures thrown == LoadArrayAEmission(base.info, base.frame, downstream).thrown
      ensures base.out == old(base.out) + LoadArrayAEmission(base.info, base.frame, downstream).code
    {
      var holderClass := ArrayHolder(downstream, 2);
      if holderClass.Err? {
        return Some(holderClass.error);
      }
      base.EmitCode(LoadArrayAPre(holderClass.value, base.info.name, base.info.className));
      thrown := base.PushThisKindAndObj();
      if thrown.Some? {
        return;
      }
      base.EmitCode(LOAD_ARRAY_A_POST);
    }

    /** `visitInsn(opcode)`. */
    method VisitInsn(opcode: int) returns (thrown: Option<JavaException>)
      modifies base`out
      ensures thrown == VisitInsnEmission(base.info, base.frame, downstream, opcode).thrown
      ensures base.out == old(base.out) + VisitInsnEmission(base.info, base.frame, downstream, opcode).code
    {
      var valSize := 1;
      thrown := None;
      if opcode == AASTORE {
        thrown := EmitStoreArrayA();
      } else if IsPrimitiveArrayStore(opcode) {
        if opcode == LASTORE || opcode == DASTORE {
          valSize := 2;
        }
        thrown := EmitStoreArrayPrimitive(valSize);
      } else if opcode == AALOAD {
        thrown := EmitLoadArrayA();
      } else if IsPrimitiveArrayLoad(opcode) {
        thrown := EmitLoadArrayPrimitive();
      }
      if thrown.Some? {
        return;
      }
      base.Emit(InsnOf(opcode));
    }

    /** `emitReadModifyCode(owner, name, desc, fieldIsStatic, read)`. */
    method EmitReadModifyCode(owner: string, name: string, desc: string, fieldIsStatic: bool, read: bool)
      returns (thrown: Option<JavaException>)
      modifies base`out
      ensures thrown == ReadModifyEmission(base.info, base.frame, owner, name, desc, fieldIsStatic, read).thrown
      ensures base.out
           == old(base.out) + ReadModifyEmission(base.info, base.frame, owner, name, desc, fieldIsStatic, read).code
    {
      if !read && !fieldIsStatic {
        // the comment naming the top of the stack is built before the swap
        if base.frame.stack.None? {
          return Some(NullPointer);
        } else if |base.frame.stack.value| == 0 {
          return Some(IndexOutOfBounds);
        }
      }
      base.EmitCode(ReadModifyPre(owner, name, desc, fieldIsStatic, read));
      thrown := base.PushThisKindAndObj();
      if thrown.Some? {
        return;
      }
      base.EmitCode(ReadModifyPost(desc, fieldIsStatic, read, base.info.className));
    }

    /** `emitLoadFieldACode(holderClass, fName, type, fieldIsStatic)`: for an
        instance field the analyzer's top entry chooses the holder pair. */
    method EmitLoadFieldACode(h: string, f: string, t: string, fieldIsStatic: bool)
      returns (thrown: Option<JavaException>)
      modifies base`out
      ensures thrown == LoadFieldAEmission(base.info, base.frame, h, f, t, fieldIsStatic).thrown
      ensures base.out == old(base.out) + LoadFieldAEmission(base.info, base.frame, h, f, t, fieldIsStatic).code
    {
      var holderUninit := false;
      if !fieldIsStatic {
        if base.frame.stack.None? {
          return Some(NullPointer);
        } else if |base.frame.stack.value| == 0 {
          return Some(IndexOutOfBounds);
        }
        holderUninit := base.frame.stack.value[|base.frame.stack.value| - 1] == UninitializedThis;
      }
      base.EmitCode(LoadFieldAPre(h, f, t, fieldIsStatic, holderUninit, base.info.className, base.info.name));
      thrown := base.PushThisKindAndObj();
      if thrown.Some? {
        return;
      }
      base.EmitCode(LOAD_FIELD_A_POST);
    }

    /** `emitStoreFieldACode(owner, name, desc, fieldIsStatic)`: the holder
        part is emitted before the old value is looked at, so a holder the
        analyzer shows uninitialised fails after it. */
    method EmitStoreFieldACode(owner: string, name: string, desc: string, fieldIsStatic: bool)
      returns (thrown: Option<JavaException>)
      modifies base`out
      ensures thrown == StoreFieldAEmission(base.info, base.frame, downstream, owner, name, desc, fieldIsStatic).thrown
      ensures base.out == old(base.out)
                          + StoreFieldAEmission(base.info, base.frame, downstream, owner, name, desc, fieldIsStatic).code
    {
      var pre: seq<Insn>;
      if fieldIsStatic {
        pre := StoreFieldAPre(owner, name, desc, true, false, false, base.info.className, base.info.name);
      } else {
        var newValType := DownstreamTop(downstream);
        if newValType.Err? {
          return Some(newValType.error);
        }
        var newValUninit := newValType.value == UninitializedThis;
        var check := OldValueCheck(base.info, base.frame);
        if check.Some? {
          base.EmitCode(StoreHolderCode(false, newValUninit));
          return check;
        }
        pre := StoreFieldAPre(owner, name, desc, false, newValUninit, base.info.name == "<init>",
                              base.info.className, base.info.name);
      }
      base.EmitCode(pre);
      thrown := base.PushThisKindAndObj();
      if thrown.Some? {
        return;
      }
      base.EmitCode(STORE_FIELD_A_POST);
    }

    /** `visitFieldInsn(opcode, owner, name, desc)`. */
    method VisitFieldInsn(opcode: int, owner: string, name: string, desc: string)
      returns (thrown: Option<JavaException>)
      modifies base`out
      ensures thrown == VisitFieldInsnEmission(base.info, base.frame, downstream, opcode, owner, name, desc).thrown
      ensures base.out
           == old(base.out) + VisitFieldInsnEmission(base.info, base.frame, downstream, opcode, owner, name, desc).code
    {
      thrown := None;
      if !Contains(name, "$") && base.frame.stack.Some? {
        var st := base.frame.stack.value;
        if opcode == GETSTATIC || opcode == GETFIELD {
          var fieldIsStatic := opcode == GETSTATIC;
          var isRef := InstrumentationVisitor.IsReferenceType(desc);
          if isRef.Err? {
            return Some(isRef.error);
          } else if isRef.value {
            if |st| == 0 || st[0] != UninitializedThis {
              thrown := EmitLoadFieldACode(owner, name, desc, fieldIsStatic);
            }
          } else {
            thrown := EmitReadModifyCode(owner, name, desc, fieldIsStatic, true);
          }
        } else if opcode == PUTSTATIC || opcode == PUTFIELD {
          var fieldIsStatic := opcode == PUTSTATIC;
          var isRef := InstrumentationVisitor.IsReferenceType(desc);
          if isRef.Err? {
            return Some(isRef.error);
          } else if isRef.value {
            thrown := EmitStoreFieldACode(owner, name, desc, fieldIsStatic);
          } else {
            thrown := EmitReadModifyCode(owner, name, desc, fieldIsStatic, false);
          }
        }
      }
      if thrown.Some? {
        return;
      }
      base.Emit(Field(opcode, owner, name, desc));
    }
  }
}
