/** `MethodMV`: reports every entry into the rewritten method to the trace
    sink (`methodEnter`, preceded in a constructor by `afterInitMethod`),
    with the receiver and an `Object[]` holding the reference arguments, and
    reports every array allocation as a call of a fake constructor of the
    array class. */
module MethodMv {
  import opened Common
  import opened Jvm
  import opened InstrumentationMv
  import InstrumentationVisitor
  import Instrument

  const NI := "NativeInterface"
  const OBJECT := "java/lang/Object"
  const OBJECT_ARRAY := "[Ljava/lang/Object;"
  const AFTER_INIT_DESC := "(Ljava/lang/Object;Ljava/lang/String;)V"
  const METHOD_ENTER_DESC :=
    "(Ljava/lang/String;Ljava/lang/String;Ljava/lang/String;ILjava/lang/Object;[Ljava/lang/Object;)V"

  // ----- the arguments array (pushReftypeArgs) ---------------------------

  /** The local slot of parameter `k`, counted from the first parameter's:
      the slots the parameters before it occupy (section 2.6.1 of the JVM
      specification). */
  function LocalOffset(params: seq<string>, k: nat): nat
    requires k <= |params|
  {
    if k == 0 then 0 else LocalOffset(params, k - 1) + DescSize(params[k - 1])
  }

  /** How many of the parameters before `k` take two slots: the loop's
      `doubleSizeVars` when it reaches `k`. */
  function WideCount(params: seq<string>, k: nat): nat
    requires k <= |params|
  {
    if k == 0 then 0 else WideCount(params, k - 1) + (if DescSize(params[k - 1]) == 2 then 1 else 0)
  }

  /** The loop's `slot + doubleSizeVars` is the parameter's local slot. */
  lemma {:induction false} WideCountOffset(params: seq<string>, k: nat)
    requires k <= |params|
    ensures k + WideCount(params, k) == LocalOffset(params, k)
  {
    if k > 0 {
      WideCountOffset(params, k - 1);
    }
  }

  /** Local 0 holds the receiver of an instance method, so its parameters
      start at 1. */
  function FirstParam(info: MethodInfo): nat {
    if IsStatic(info) then 0 else 1
  }

  /** The value put into the array for a parameter with descriptor `p` held
      in `local`: `null` for a primitive (a one-letter descriptor), the
      reference itself otherwise. */
  function ArgValue(p: string, local: nat): Value {
    if |p| == 1 then NullV else LocalV(local)
  }

  function ArgLoad(p: string, local: nat): Insn {
    if |p| == 1 then AconstNull else Var(ALOAD, local)
  }

  /** One round of the loop: `array[index] = <parameter in local>`. */
  function ArgCode(p: string, index: nat, local: nat): seq<Insn> {
    [Dup, Sipush(index), ArgLoad(p, local), Aastore]
  }

  /** The rounds for the first `k` parameters. */
  function ArgsCode(params: seq<string>, first: nat, k: nat): seq<Insn>
    requires k <= |params|
  {
    if k == 0 then []
    else ArgsCode(params, first, k - 1)
         + ArgCode(params[k - 1], first + k - 1, first + LocalOffset(params, k - 1))
  }

  /** What `pushReftypeArgs` emits: the array, one slot per parameter and
      one for the receiver of an instance method, then the rounds. */
  function ReftypeArgsCode(info: MethodInfo): seq<Insn> {
    [Ldc(IntC(|info.params| + FirstParam(info))), Anewarray(OBJECT)]
    + ArgsCode(info.params, FirstParam(info), |info.params|)
  }

  /** The array the code allocates. */
  function ArgsArray(info: MethodInfo): Value {
    RefArrayV(OBJECT, IntV(|info.params| + FirstParam(info)))
  }

  /** The stores into `arr` the first `k` rounds perform. */
  function ArgStores(params: seq<string>, first: nat, arr: Value, k: nat): (r: seq<Effect>)
    requires k <= |params|
    ensures |r| == k
  {
    if k == 0 then []
    else ArgStores(params, first, arr, k - 1)
         + [Store(arr, IntV(first + k - 1), ArgValue(params[k - 1], first + LocalOffset(params, k - 1)))]
  }

  /** Store `j` puts parameter `j` at index `first + j`: every index is
      inside the array, slot 0 of an instance method's array is never
      written, and a reference parameter is read from its own local. */
  lemma ArgStoresShape(params: seq<string>, first: nat, arr: Value, k: nat)
    requires k <= |params|
    ensures forall j | 0 <= j < k ::
              ArgStores(params, first, arr, k)[j]
              == Store(arr, IntV(first + j), ArgValue(params[j], first + LocalOffset(params, j)))
    ensures forall j | 0 <= j < k ::
              first <= ArgStores(params, first, arr, k)[j].index.n < |params| + first
  {
    var stores := ArgStores(params, first, arr, k);
    forall j | 0 <= j < k
      ensures stores[j] == Store(arr, IntV(first + j), ArgValue(params[j], first + LocalOffset(params, j)))
      ensures first <= stores[j].index.n < |params| + first
    {
      ArgStoreAt(params, first, arr, k, j);
    }
  }

  lemma {:induction false} ArgStoreAt(params: seq<string>, first: nat, arr: Value, k: nat, j: nat)
    requires j < k <= |params|
    ensures ArgStores(params, first, arr, k)[j]
            == Store(arr, IntV(first + j), ArgValue(params[j], first + LocalOffset(params, j)))
  {
    if j < k - 1 {
      ArgStoreAt(params, first, arr, k - 1, j);
    }
  }

  lemma ArgRun(p: string, index: nat, local: nat, s: Stack, arr: Value, e: seq<Effect>)
    requires Cat1(arr)
    ensures Run(ArgCode(p, index, local), Machine(Push(s, arr), e))
         == Some(Machine(Push(s, arr), e + [Store(arr, IntV(index), ArgValue(p, local))]))
  {
    var code := ArgCode(p, index, local);
    var m := StepAt(code, 0, Machine(Push(s, arr), e));
    m := StepAt(code, 1, m);
    m := StepAt(code, 2, m);
    m := StepAt(code, 3, m);
  }

  /** The rounds leave the array on the stack and store every parameter. */
  lemma {:induction false} ArgsRun(params: seq<string>, first: nat, k: nat, s: Stack, arr: Value, e: seq<Effect>)
    requires k <= |params| && Cat1(arr)
    ensures Run(ArgsCode(params, first, k), Machine(Push(s, arr), e))
         == Some(Machine(Push(s, arr), e + ArgStores(params, first, arr, k)))
  {
    if k == 0 {
      RunDone([], Machine(Push(s, arr), e));
      assert e + ArgStores(params, first, arr, k) == e;
    } else {
      var before := e + ArgStores(params, first, arr, k - 1);
      var p, index, local := params[k - 1], first + k - 1, first + LocalOffset(params, k - 1);
      ArgsRun(params, first, k - 1, s, arr, e);
      ArgRun(p, index, local, s, arr, before);
      RunThen(ArgsCode(params, first, k - 1), ArgCode(p, index, local),
              Machine(Push(s, arr), e), Machine(Push(s, arr), before));
      assert before + [Store(arr, IntV(index), ArgValue(p, local))]
          == e + ArgStores(params, first, arr, k);
    }
  }

  /** `pushReftypeArgs` pushes the array and fills it, calling nothing. */
  lemma ReftypeArgsRun(info: MethodInfo, s: Stack, e: seq<Effect>)
    ensures Run(ReftypeArgsCode(info), Machine(s, e))
         == Some(Machine(Push(s, ArgsArray(info)),
                         e + ArgStores(info.params, FirstParam(info), ArgsArray(info), |info.params|)))
  {
    var alloc := [Ldc(IntC(|info.params| + FirstParam(info))), Anewarray(OBJECT)];
    var m := StepAt(alloc, 0, Machine(s, e));
    m := StepAt(alloc, 1, m);
    ArgsRun(info.params, FirstParam(info), |info.params|, s, ArgsArray(info), e);
    RunThen(alloc, ArgsCode(info.params, FirstParam(info), |info.params|), Machine(s, e), m);
  }

  // ----- onMethodEnter / emitMethodEnter ----------------------------------

  /** In a constructor: `afterInitMethod(this, className)`. */
  function AfterInitCode(info: MethodInfo): seq<Insn> {
    if info.name == "<init>" then
      [Var(ALOAD, 0), Ldc(StrC(info.className)), InvokeStatic(NI, "afterInitMethod", AFTER_INIT_DESC, 2)]
    else []
  }

  function AfterInitCalls(info: MethodInfo): seq<Effect> {
    if info.name == "<init>" then [Call(NI, "afterInitMethod", [LocalV(0), StrV(info.className)])] else []
  }

  lemma AfterInitRun(info: MethodInfo, s: Stack, e: seq<Effect>)
    ensures Run(AfterInitCode(info), Machine(s, e)) == Some(Machine(s, e + AfterInitCalls(info)))
  {
    var code := AfterInitCode(info);
    var m := Machine(s, e);
    if info.name == "<init>" {
      m := StepAt(code, 0, m);
      m := StepAt(code, 1, m);
      Pops2(s, LocalV(0), StrV(info.className));
      m := StepAt(code, 2, m);
    } else {
      RunDone([], m);
      assert e + AfterInitCalls(info) == e;
    }
  }

  /** The method's name, its descriptor and its class, as `methodEnter`'s
      first three arguments. */
  function MethodEnterPre(info: MethodInfo): seq<Insn> {
    [Ldc(StrC(info.name)), Ldc(StrC(info.desc)), Ldc(StrC(info.className))]
  }

  /** After the receiver's kind and the receiver: the arguments and the call. */
  function MethodEnterPost(info: MethodInfo): seq<Insn> {
    ReftypeArgsCode(info) + [InvokeStatic(NI, "methodEnter", METHOD_ENTER_DESC, 6)]
  }

  /** The `methodEnter` call the code makes. */
  function MethodEnterCall(info: MethodInfo, p: Pushed): Effect
    requires Loads(p.obj)
  {
    Call(NI, "methodEnter", [StrV(info.name), StrV(info.desc), StrV(info.className),
                             IntV(p.kind), ObjValue(p.obj, Bottom), ArgsArray(info)])
  }

  /** The code of `emitMethodEnter` leaves the stack as it found it; it fills
      the arguments array and then calls `methodEnter` with the method's
      name, descriptor and class, the receiver's kind and the receiver, and
      the array. */
  lemma MethodEnterRun(info: MethodInfo, p: Pushed, s: Stack, e: seq<Effect>)
    requires Loads(p.obj)
    ensures Run(MethodEnterPre(info) + KindObjCode(p) + MethodEnterPost(info), Machine(s, e))
         == Some(Machine(s, e + ArgStores(info.params, FirstParam(info), ArgsArray(info), |info.params|)
                               + [MethodEnterCall(info, p)]))
  {
    var s3 := Push(Push(Push(s, StrV(info.name)), StrV(info.desc)), StrV(info.className));
    var s5 := Push(Push(s3, IntV(p.kind)), ObjValue(p.obj, s3));
    var stores := ArgStores(info.params, FirstParam(info), ArgsArray(info), |info.params|);
    var invoke := [InvokeStatic(NI, "methodEnter", METHOD_ENTER_DESC, 6)];
    Ldc3Run(StrC(info.name), StrC(info.desc), StrC(info.className), s, e);
    RunAround(MethodEnterPre(info), p, MethodEnterPost(info), Machine(s, e), Machine(s3, e));
    ReftypeArgsRun(info, s5, e);
    Pops6(s, StrV(info.name), StrV(info.desc), StrV(info.className), IntV(p.kind), ObjValue(p.obj, s3),
          ArgsArray(info));
    InvokeRun(NI, "methodEnter", METHOD_ENTER_DESC, 6, Push(s5, ArgsArray(info)), s,
              [StrV(info.name), StrV(info.desc), StrV(info.className), IntV(p.kind), ObjValue(p.obj, s3),
               ArgsArray(info)], e + stores);
    RunThen(ReftypeArgsCode(info), invoke, Machine(s5, e), Machine(Push(s5, ArgsArray(info)), e + stores));
  }

  /** `emitMethodEnter`: the call, or, when the receiver cannot be read, the
      three strings and the exception. */
  function MethodEnterEmission(info: MethodInfo, frame: Frame): Emission {
    Around(MethodEnterPre(info), ThisKindAndObj(info, frame), MethodEnterPost(info))
  }

  /** `onMethodEnter`: a constructor first reports that `this` is
      initialised. */
  function OnMethodEnterEmission(info: MethodInfo, frame: Frame): Emission {
    Around(AfterInitCode(info) + MethodEnterPre(info), ThisKindAndObj(info, frame), MethodEnterPost(info))
  }

  /** The entry code throws exactly when an instance method's frame has no
      locals; otherwise it leaves the stack as it was and makes, in order:
      in a constructor the `afterInitMethod` call, the stores into the
      arguments array, and the `methodEnter` call. */
  lemma OnMethodEnterTransparent(info: MethodInfo, frame: Frame, s: Stack, e: seq<Effect>)
    ensures var em := OnMethodEnterEmission(info, frame);
            em.thrown.Some? <==> frame.locals.Some? && !IsStatic(info) && |frame.locals.value| == 0
    ensures var em := OnMethodEnterEmission(info, frame);
            em.thrown.None? ==>
              Run(em.code, Machine(s, e))
              == Some(Machine(s, e + AfterInitCalls(info)
                                   + ArgStores(info.params, FirstParam(info), ArgsArray(info), |info.params|)
                                   + [MethodEnterCall(info, ThisKindAndObj(info, frame).value)]))
  {
    var r := ThisKindAndObj(info, frame);
    if r.Ok? {
      var p := r.value;
      var mid := e + AfterInitCalls(info);
      var code := MethodEnterPre(info) + KindObjCode(p) + MethodEnterPost(info);
      AfterInitRun(info, s, e);
      MethodEnterRun(info, p, s, mid);
      RunThen(AfterInitCode(info), code, Machine(s, e), Machine(s, mid));
      assert AfterInitCode(info) + MethodEnterPre(info) + KindObjCode(p) + MethodEnterPost(info)
          == AfterInitCode(info) + code;
    }
  }

  // ----- array allocations (visitIntInsn / visitTypeInsn) ----------------

  /** The class of the array `NEWARRAY atype` allocates, or the exception
      for an operand that is no array type code. */
  function PrimitiveArrayClass(atype: int): (r: Result<string>)
    ensures r.Ok? <==> T_BOOLEAN <= atype <= T_LONG
    ensures r.Err? ==> r.error == IllegalArgument("don't understand primitive type operand " + IntToString(atype))
  {
    if atype == T_BOOLEAN then Ok("[Z")
    else if atype == T_CHAR then Ok("[C")
    else if atype == T_BYTE then Ok("[B")
    else if atype == T_FLOAT then Ok("[F")
    else if atype == T_LONG then Ok("[J")
    else if atype == T_DOUBLE then Ok("[D")
    else if atype == T_SHORT then Ok("[S")
    else if atype == T_INT then Ok("[I")
    else Err(IllegalArgument("don't understand primitive type operand " + IntToString(atype)))
  }

  /** Table 6.5.newarray-A of the JVM specification, read from the element
      type's descriptor to the type code. */
  function ArrayTypeCode(elem: char): Option<int> {
    match elem
    case 'Z' => Some(T_BOOLEAN)
    case 'C' => Some(T_CHAR)
    case 'F' => Some(T_FLOAT)
    case 'D' => Some(T_DOUBLE)
    case 'B' => Some(T_BYTE)
    case 'S' => Some(T_SHORT)
    case 'I' => Some(T_INT)
    case 'J' => Some(T_LONG)
    case _ => None
  }

  /** The class reported for `NEWARRAY` is the array of the element type the
      type code stands for, and every element type of the table is reached:
      the two maps are inverse. */
  lemma PrimitiveArrayClassAgrees(atype: int, elem: char)
    ensures PrimitiveArrayClass(atype).Ok? ==>
              var c := PrimitiveArrayClass(atype).value;
              |c| == 2 && c[0] == '[' && ArrayTypeCode(c[1]) == Some(atype)
    ensures ArrayTypeCode(elem) == Some(atype) ==> PrimitiveArrayClass(atype) == Ok(['[', elem])
  {
  }

  /** The fake constructor call, before the array's class is pushed:
      `afterInitMethod(array, "[Ljava/lang/Object;")`, then the first two
      arguments of `methodEnter`. */
  const FAKE_INIT_HEAD: seq<Insn> :=
    [Dup, Ldc(StrC(OBJECT_ARRAY)), InvokeStatic(NI, "afterInitMethod", AFTER_INIT_DESC, 2),
     Ldc(StrC("<init>")), Ldc(StrC("(I)V"))]

  /** The rest: the class, kind THIS with no receiver and no arguments, and
      the `methodEnter` call. */
  function FakeInitTail(arrayClass: string): seq<Insn> {
    [Ldc(StrC(arrayClass)), Ldc(IntC(Instrument.SPECIAL_VAL_THIS)), AconstNull, AconstNull,
     InvokeStatic(NI, "methodEnter", METHOD_ENTER_DESC, 6)]
  }

  function FakeInitCode(arrayClass: string): seq<Insn> {
    FAKE_INIT_HEAD + FakeInitTail(arrayClass)
  }

  /** The two calls that report a new array as constructed. */
  function FakeInitCalls(arr: Value, arrayClass: string): seq<Effect> {
    [Call(NI, "afterInitMethod", [arr, StrV(OBJECT_ARRAY)]),
     Call(NI, "methodEnter", [StrV("<init>"), StrV("(I)V"), StrV(arrayClass),
                              IntV(Instrument.SPECIAL_VAL_THIS), NullV, NullV])]
  }

  lemma FakeInitHeadRun(s: Stack, arr: Value, e: seq<Effect>)
    requires Cat1(arr)
    ensures Run(FAKE_INIT_HEAD, Machine(Push(s, arr), e))
         == Some(Machine(Push(Push(Push(s, arr), StrV("<init>")), StrV("(I)V")),
                         e + [Call(NI, "afterInitMethod", [arr, StrV(OBJECT_ARRAY)])]))
  {
    var dup := [Dup];
    var call := [Ldc(StrC(OBJECT_ARRAY)), InvokeStatic(NI, "afterInitMethod", AFTER_INIT_DESC, 2)];
    var strs := [Ldc(StrC("<init>")), Ldc(StrC("(I)V"))];
    var e1 := e + [Call(NI, "afterInitMethod", [arr, StrV(OBJECT_ARRAY)])];
    DupRun(s, arr, e);
    Pops2(Push(s, arr), arr, StrV(OBJECT_ARRAY));
    LdcInvokeRun(StrC(OBJECT_ARRAY), NI, "afterInitMethod", AFTER_INIT_DESC, 2, Push(Push(s, arr), arr),
                 Push(s, arr), [arr, StrV(OBJECT_ARRAY)], e);
    RunThen(dup, call, Machine(Push(s, arr), e), Machine(Push(Push(s, arr), arr), e));
    Ldc2Run(StrC("<init>"), StrC("(I)V"), Push(s, arr), e1);
    RunThen(dup + call, strs, Machine(Push(s, arr), e), Machine(Push(s, arr), e1));
    assert dup + call + strs == FAKE_INIT_HEAD;
  }

  lemma FakeInitTailRun(arrayClass: string, s: Stack, e: seq<Effect>)
    ensures Run(FakeInitTail(arrayClass), Machine(Push(Push(s, StrV("<init>")), StrV("(I)V")), e))
         == Some(Machine(s, e + [Call(NI, "methodEnter", [StrV("<init>"), StrV("(I)V"), StrV(arrayClass),
                                                          IntV(Instrument.SPECIAL_VAL_THIS), NullV, NullV])]))
  {
    var code := FakeInitTail(arrayClass);
    var m := StepAt(code, 0, Machine(Push(Push(s, StrV("<init>")), StrV("(I)V")), e));
    m := StepAt(code, 1, m);
    m := StepAt(code, 2, m);
    m := StepAt(code, 3, m);
    Pops6(s, StrV("<init>"), StrV("(I)V"), StrV(arrayClass), IntV(Instrument.SPECIAL_VAL_THIS), NullV, NullV);
    m := StepAt(code, 4, m);
  }

  /** The fake constructor call leaves the new array where it was and makes
      the two calls. */
  lemma FakeInitRun(arrayClass: string, s: Stack, arr: Value, e: seq<Effect>)
    requires Cat1(arr)
    ensures Run(FakeInitCode(arrayClass), Machine(Push(s, arr), e))
         == Some(Machine(Push(s, arr), e + FakeInitCalls(arr, arrayClass)))
  {
    var e1 := e + [Call(NI, "afterInitMethod", [arr, StrV(OBJECT_ARRAY)])];
    FakeInitHeadRun(s, arr, e);
    FakeInitTailRun(arrayClass, Push(s, arr), e1);
    RunThen(FAKE_INIT_HEAD, FakeInitTail(arrayClass), Machine(Push(s, arr), e),
            Machine(Push(Push(Push(s, arr), StrV("<init>")), StrV("(I)V")), e1));
    assert e1 + [FakeInitCalls(arr, arrayClass)[1]] == e + FakeInitCalls(arr, arrayClass);
  }

  /** `visitIntInsn`: the event itself, then for `NEWARRAY` the fake
      constructor call of its array class; an unknown type code throws after
      the event was passed on. */
  function VisitIntInsnEmission(opcode: int, operand: int): Emission {
    if opcode != NEWARRAY then Emission([IntInsnOf(opcode, operand)], None)
    else match PrimitiveArrayClass(operand)
      case Err(ex) => Emission([NewArray(operand)], Some(ex))
      case Ok(c) => Emission([NewArray(operand)] + FakeInitCode(c), None)
  }

  /** Any other int instruction is passed on alone; `NEWARRAY` with a
      type code of the table allocates the array as the original did and
      reports it constructed as the array of that element type. */
  lemma VisitIntInsnTransparent(opcode: int, operand: int, s: Stack, len: Value, e: seq<Effect>)
    ensures opcode != NEWARRAY ==> VisitIntInsnEmission(opcode, operand) == Emission([IntInsnOf(opcode, operand)], None)
    ensures opcode == NEWARRAY ==>
              (VisitIntInsnEmission(opcode, operand).thrown.None? <==> T_BOOLEAN <= operand <= T_LONG)
    ensures opcode == NEWARRAY && T_BOOLEAN <= operand <= T_LONG && Cat1(len) ==>
              Run(VisitIntInsnEmission(opcode, operand).code, Machine(Push(s, len), e))
              == Some(Machine(Push(s, PrimArrayV(operand, len)),
                              e + FakeInitCalls(PrimArrayV(operand, len), PrimitiveArrayClass(operand).value)))
  {
    if opcode == NEWARRAY && T_BOOLEAN <= operand <= T_LONG && Cat1(len) {
      var arr := PrimArrayV(operand, len);
      var m := StepAt([NewArray(operand)], 0, Machine(Push(s, len), e));
      FakeInitRun(PrimitiveArrayClass(operand).value, s, arr, e);
      RunThen([NewArray(operand)], FakeInitCode(PrimitiveArrayClass(operand).value), Machine(Push(s, len), e), m);
    }
  }

  /** The operand `ANEWARRAY` takes for elements of the type with descriptor
      `d`: a class descriptor `Lname;` gives `name`, an array descriptor is
      taken as it is (section 6.5, anewarray). */
  function ElementOperand(d: string): string {
    if |d| >= 2 && d[0] == 'L' && d[|d| - 1] == ';' then d[1..|d| - 1] else d
  }

  /** The array class `visitTypeInsn` reports for `ANEWARRAY type`, as
      written: an array element type gets a `;` it does not have. */
  function ArrayClassAsWritten(typ: string): Result<string> {
    match InstrumentationVisitor.IsArrayType(typ)
    case Err(ex) => Err(ex)
    case Ok(isArray) => Ok(if isArray then "[" + typ + ";" else "[L" + typ + ";")
  }

  /** For `ANEWARRAY [I` the class reported is `[[I;`, which names no class:
      dropping the leading `[` does not give back the element type. */
  lemma ArrayClassAsWrittenBreaks()
    ensures ArrayClassAsWritten("[I") == Ok("[[I;")
    ensures ElementOperand("[[I;"[1..]) != "[I"
    ensures ArrayClassAsWritten("[Ljava/lang/String;") == Ok("[[Ljava/lang/String;;")
  {
    assert "[" + "[I" + ";" == "[[I;";
    assert "[" + "[Ljava/lang/String;" + ";" == "[[Ljava/lang/String;;";
    assert "[[I;"[1..] == "[I;";
    assert "[I;"[0] == '[';
  }

  /** The array class of elements of `typ`: `[` followed by the element
      type's descriptor. */
  function ArrayClass(typ: string): (r: Result<string>)
    ensures r.Err? <==> typ == []
    ensures r.Ok? ==> |r.value| >= 2 && r.value[0] == '[' && ElementOperand(r.value[1..]) == typ
  {
    match InstrumentationVisitor.IsArrayType(typ)
    case Err(ex) => Err(ex)
    case Ok(isArray) =>
      var d := if isArray then typ else "L" + typ + ";";
      assert ("[" + d)[1..] == d;
      assert !isArray ==> d[1..|d| - 1] == typ;
      Ok("[" + d)
  }

  /** The correction changes nothing for arrays of classes. */
  lemma ArrayClassAgreesOnClasses(typ: string)
    requires typ != [] && typ[0] != '['
    ensures ArrayClass(typ) == ArrayClassAsWritten(typ)
  {
    assert "[" + ("L" + typ + ";") == "[L" + typ + ";";
  }

  /** `visitTypeInsn` as written, for comparison. */
  function VisitTypeInsnEmissionAsWritten(opcode: int, typ: string): Emission {
    if opcode != ANEWARRAY then Emission([TypeInsnOf(opcode, typ)], None)
    else match ArrayClassAsWritten(typ)
      case Err(ex) => Emission([Anewarray(typ)] + FAKE_INIT_HEAD, Some(ex))
      case Ok(c) => Emission([Anewarray(typ)] + FakeInitCode(c), None)
  }

  /** `visitTypeInsn`: the event itself, then for `ANEWARRAY` the fake
      constructor call of its array class.  The class is only computed after
      the first five instructions of the call were passed on, so an empty
      type throws after them. */
  function VisitTypeInsnEmission(opcode: int, typ: string): Emission {
    if opcode != ANEWARRAY then Emission([TypeInsnOf(opcode, typ)], None)
    else match ArrayClass(typ)
      case Err(ex) => Emission([Anewarray(typ)] + FAKE_INIT_HEAD, Some(ex))
      case Ok(c) => Emission([Anewarray(typ)] + FakeInitCode(c), None)
  }

  /** The two versions emit different code for an array of `int[]`. */
  lemma VisitTypeInsnAsWrittenDiffers()
    ensures VisitTypeInsnEmissionAsWritten(ANEWARRAY, "[I").code
         == [Anewarray("[I")] + FakeInitCode("[[I;")
    ensures VisitTypeInsnEmission(ANEWARRAY, "[I").code
         == [Anewarray("[I")] + FakeInitCode("[[I")
  {
    ArrayClassAsWrittenBreaks();
    assert "[" + "[I" == "[[I";
  }

  /** Any other type instruction is passed on alone; `ANEWARRAY` of a
      non-empty type allocates the array as the original did and reports it
      constructed as the array class of that type. */
  lemma VisitTypeInsnTransparent(opcode: int, typ: string, s: Stack, len: Value, e: seq<Effect>)
    ensures opcode != ANEWARRAY ==> VisitTypeInsnEmission(opcode, typ) == Emission([TypeInsnOf(opcode, typ)], None)
    ensures opcode == ANEWARRAY ==> (VisitTypeInsnEmission(opcode, typ).thrown.None? <==> typ != [])
    ensures opcode == ANEWARRAY && typ != [] && Cat1(len) ==>
              Run(VisitTypeInsnEmission(opcode, typ).code, Machine(Push(s, len), e))
              == Some(Machine(Push(s, RefArrayV(typ, len)),
                              e + FakeInitCalls(RefArrayV(typ, len), ArrayClass(typ).value)))
  {
    if opcode == ANEWARRAY && typ != [] && Cat1(len) {
      var arr := RefArrayV(typ, len);
      var m := StepAt([Anewarray(typ)], 0, Machine(Push(s, len), e));
      FakeInitRun(ArrayClass(typ).value, s, arr, e);
      RunThen([Anewarray(typ)], FakeInitCode(ArrayClass(typ).value), Machine(Push(s, len), e), m);
    }
  }

  // ----- the visitor ------------------------------------------------------

  class MethodMV {
    const base: InstrumentationMV

    constructor(base: InstrumentationMV)
      ensures this.base == base
    {
      this.base := base;
    }

    /** `pushReftypeArgs`. */
    method PushReftypeArgs()
      modifies base`out
      ensures base.out == old(base.out) + ReftypeArgsCode(base.info)
    {
      var params := base.info.params;
      var firstParam := if IsStatic(base.info) then 0 else 1;
      base.Emit(Ldc(IntC(|params| + firstParam)));
      var doubleSizeVars := 0;
      base.Emit(Anewarray(OBJECT));
      var slot := 0;
      while slot < |params|
        invariant 0 <= slot <= |params|
        invariant doubleSizeVars == WideCount(params, slot)
        invariant base.out == old(base.out) + [Ldc(IntC(|params| + firstParam)), Anewarray(OBJECT)]
                              + ArgsCode(params, firstParam, slot)
      {
        var t := params[slot];
        var load: Insn;
        if |t| == 1 {
          load := AconstNull;
        } else {
          WideCountOffset(params, slot);
          load := Var(ALOAD, firstParam + slot + doubleSizeVars);
        }
        if DescSize(t) == 2 {
          doubleSizeVars := doubleSizeVars + 1;
        }
        base.EmitCode([Dup, Sipush(firstParam + slot), load, Aastore]);
        slot := slot + 1;
      }
    }

    /** `emitMethodEnter`. */
    method EmitMethodEnter() returns (thrown: Option<JavaException>)
      modifies base`out
      ensures thrown == MethodEnterEmission(base.info, base.frame).thrown
      ensures base.out == old(base.out) + MethodEnterEmission(base.info, base.frame).code
    {
      base.EmitCode(MethodEnterPre(base.info));
      thrown := base.PushThisKindAndObj();
      if thrown.Some? {
        return;
      }
      PushReftypeArgs();
      base.Emit(InvokeStatic(NI, "methodEnter", METHOD_ENTER_DESC, 6));
    }

    /** `onMethodEnter`. */
    method OnMethodEnter() returns (thrown: Option<JavaException>)
      modifies base`out
      ensures thrown == OnMethodEnterEmission(base.info, base.frame).thrown
      ensures base.out == old(base.out) + OnMethodEnterEmission(base.info, base.frame).code
    {
      if base.info.name == "<init>" {
        base.Emit(Var(ALOAD, 0));
        base.Emit(Ldc(StrC(base.info.className)));
        base.Emit(InvokeStatic(NI, "afterInitMethod", AFTER_INIT_DESC, 2));
      }
      ghost var mid := base.out;
      thrown := EmitMethodEnter();
      assert mid == old(base.out) + AfterInitCode(base.info);
    }

    /** `visitIntInsn`. */
    method VisitIntInsn(opcode: int, operand: int) returns (thrown: Option<JavaException>)
      modifies base`out
      ensures thrown == VisitIntInsnEmission(opcode, operand).thrown
      ensures base.out == old(base.out) + VisitIntInsnEmission(opcode, operand).code
    {
      base.Emit(IntInsnOf(opcode, operand));
      thrown := None;
      if opcode == NEWARRAY {
        var arrayClass := PrimitiveArrayClass(operand);
        if arrayClass.Err? {
          return Some(arrayClass.error);
        }
        base.EmitCode(FakeInitCode(arrayClass.value));
      }
    }

    /** `visitTypeInsn`, with the array class of an array element type
        corrected. */
    method VisitTypeInsn(opcode: int, typ: string) returns (thrown: Option<JavaException>)
      modifies base`out
      ensures thrown == VisitTypeInsnEmission(opcode, typ).thrown
      ensures base.out == old(base.out) + VisitTypeInsnEmission(opcode, typ).code
    {
      base.Emit(TypeInsnOf(opcode, typ));
      thrown := None;
      if opcode == ANEWARRAY {
        base.EmitCode(FAKE_INIT_HEAD);
        var arrayClass := ArrayClass(typ);
        if arrayClass.Err? {
          return Some(arrayClass.error);
        }
        base.EmitCode(FakeInitTail(arrayClass.value));
      }
    }
  }
}
