/** `InstrumentationMV`, the base of the three rewriting method visitors: what
    it knows about the method being rewritten, the frame its analyzer computed
    before the current instruction, and the code it emits to pass a value
    together with its kind (`SPECIAL_VAL_*`) to the trace sink. */
module InstrumentationMv {
  import opened Common
  import opened Jvm
  import Instrument

  /** The method being rewritten.  `params` are the argument types ASM's
      `Type.getArgumentTypes(desc)` reads off the descriptor, as descriptors
      (parsing the descriptor is not part of this model). */
  datatype MethodInfo = MethodInfo(
    className: string,
    name: string,
    access: bv32,
    desc: string,
    params: seq<string>)

  predicate IsStatic(info: MethodInfo) {
    info.access & ACC_STATIC != 0
  }

  // ----- kind and object pushes ------------------------------------------

  /** Where the object half of a (kind, object) pair comes from. */
  datatype ObjSource =
    | NullObj              // ACONST_NULL
    | LocalObj(slot: nat)  // ALOAD slot
    | TopObj               // a copy of the value on top of the stack
    | BelowTopObj          // a copy of the value just below the top

  /** A (kind, object) pair as the emitted code pushes it. */
  datatype Pushed = Pushed(kind: int, obj: ObjSource)

  /** The code that pushes the pair: the kind, then the object. */
  function KindObjCode(p: Pushed): seq<Insn> {
    match p.obj
    case NullObj => [Ldc(IntC(p.kind)), AconstNull]
    case LocalObj(slot) => [Ldc(IntC(p.kind)), Var(ALOAD, slot)]
    case TopObj => [Dup, Ldc(IntC(p.kind)), Swap]
    case BelowTopObj => [Dup2, Pop, Ldc(IntC(p.kind)), Swap]
  }

  /** The stack has the values a copy is taken from. */
  predicate Loadable(o: ObjSource, s: Stack) {
    match o
    case TopObj => s.Push? && Cat1(s.top)
    case BelowTopObj => s.Push? && s.below.Push? && Cat1(s.top) && Cat1(s.below.top)
    case _ => true
  }

  /** The object pushed on stack `s`. */
  function ObjValue(o: ObjSource, s: Stack): Value
    requires Loadable(o, s)
  {
    match o
    case NullObj => NullV
    case LocalObj(slot) => LocalV(slot)
    case TopObj => s.top
    case BelowTopObj => s.below.top
  }

  /** Whatever its source, the pair code pushes exactly the kind and the
      object on top of the stack it found, and performs no call. */
  lemma KindObjCodePushes(p: Pushed, s: Stack, e: seq<Effect>)
    requires Loadable(p.obj, s)
    ensures Run(KindObjCode(p), Machine(s, e))
         == Some(Machine(Push(Push(s, IntV(p.kind)), ObjValue(p.obj, s)), e))
  {
    var c := KindObjCode(p);
    var m := Machine(s, e);
    match p.obj
    case NullObj =>
      m := StepAt(c, 0, m);
      m := StepAt(c, 1, m);
    case LocalObj(_) =>
      m := StepAt(c, 0, m);
      m := StepAt(c, 1, m);
    case TopObj =>
      m := StepAt(c, 0, m);
      m := StepAt(c, 1, m);
      m := StepAt(c, 2, m);
    case BelowTopObj =>
      m := StepAt(c, 0, m);
      m := StepAt(c, 1, m);
      m := StepAt(c, 2, m);
      m := StepAt(c, 3, m);
  }

  /** The `Loadable` sources take a copy of nothing. */
  predicate Loads(o: ObjSource) {
    o.NullObj? || o.LocalObj?
  }

  /** Running `pre`, a pair and `post`: `post` starts from the stack `pre`
      left with the kind and the object pushed on it. */
  lemma RunAround(pre: seq<Insn>, p: Pushed, post: seq<Insn>, m: Machine, m1: Machine)
    requires Run(pre, m) == Some(m1) && Loadable(p.obj, m1.stack)
    ensures Run(pre + KindObjCode(p) + post, m)
         == Run(post, Machine(Push(Push(m1.stack, IntV(p.kind)), ObjValue(p.obj, m1.stack)), m1.effects))
  {
    var m2 := Machine(Push(Push(m1.stack, IntV(p.kind)), ObjValue(p.obj, m1.stack)), m1.effects);
    KindObjCodePushes(p, m1.stack, m1.effects);
    RunThen(pre, KindObjCode(p), m, m1);
    RunThen(pre + KindObjCode(p), post, m, m2);
  }

  /** The emission of code that computes a pair in the middle: `pre`, then
      the pair and `post`, or, when computing the pair throws, `pre` alone. */
  function Around(pre: seq<Insn>, r: Result<Pushed>, post: seq<Insn>): Emission {
    match r
    case Ok(p) => Emission(pre + KindObjCode(p) + post, None)
    case Err(e) => Emission(pre, Some(e))
  }

  /** An emission followed by the forwarded original event, which is not
      reached when the emission threw. */
  function Then(em: Emission, original: seq<Insn>): Emission {
    if em.thrown.Some? then em else Emission(em.code + original, None)
  }

  /** `pushThisKindAndObj`: the kind of the running method's receiver and the
      receiver itself.  `locals == None` is unreachable code; local 0 of an
      instance method is read with `List.get`, which throws on an empty
      list. */
  function ThisKindAndObj(info: MethodInfo, frame: Frame): (r: Result<Pushed>)
    ensures r.Err? <==> frame.locals.Some? && !IsStatic(info) && |frame.locals.value| == 0
    ensures r.Ok? ==> r.value.obj == NullObj || r.value.obj == LocalObj(0)
    // the receiver is passed only with kind NORMAL ...
    ensures r.Ok? && r.value.obj != NullObj ==> r.value.kind == Instrument.SPECIAL_VAL_NORMAL
    // ... and exactly when it is a reachable, initialised `this`
    ensures r.Ok? ==> (r.value.obj == LocalObj(0) <==>
              frame.locals.Some? && !IsStatic(info) && frame.locals.value[0] != UninitializedThis)
    ensures r.Ok? ==> (r.value.kind == Instrument.SPECIAL_VAL_STATIC <==> IsStatic(info))
    ensures r.Ok? ==> (r.value.kind == Instrument.SPECIAL_VAL_THIS <==>
              !IsStatic(info) &&
              (if frame.locals.None? then info.name == "<init>"
               else frame.locals.value[0] == UninitializedThis))
  {
    match frame.locals
    case None =>
      var kind := if IsStatic(info) then Instrument.SPECIAL_VAL_STATIC
                  else if info.name == "<init>" then Instrument.SPECIAL_VAL_THIS
                  else Instrument.SPECIAL_VAL_NORMAL;
      Ok(Pushed(kind, NullObj))
    case Some(locals) =>
      if IsStatic(info) then Ok(Pushed(Instrument.SPECIAL_VAL_STATIC, NullObj))
      else if |locals| == 0 then Err(IndexOutOfBounds)
      else if locals[0] == UninitializedThis then Ok(Pushed(Instrument.SPECIAL_VAL_THIS, NullObj))
      else Ok(Pushed(Instrument.SPECIAL_VAL_NORMAL, LocalObj(0)))
  }

  /** The primitive verification types, which `pushKindAndObjectInVar`
      refuses. */
  predicate IsPrimitive(t: FrameType) {
    t == Integer || t == Float || t == Double || t == Long
  }

  /** `pushKindAndObjectInVar(var)`.  A slot past the end of the locals is
      read as the string "."; a local holding a class named "." is read the
      same way. */
  function KindAndObjectInVar(frame: Frame, v: nat): (r: Result<Pushed>)
    ensures r.Ok? ==> Loads(r.value.obj)
    // the local is loaded only with kind NORMAL, and only when it holds a reference
    ensures r.Ok? && r.value.obj != NullObj ==>
              r.value.kind == Instrument.SPECIAL_VAL_NORMAL && r.value.obj == LocalObj(v)
              && frame.locals.Some? && v < |frame.locals.value|
              && (frame.locals.value[v].Ref? || frame.locals.value[v].Uninitialized?)
    // it throws exactly for a primitive local
    ensures r.Err? <==> frame.locals.Some? && v < |frame.locals.value| && IsPrimitive(frame.locals.value[v])
    ensures r.Ok? ==> (r.value.kind == Instrument.SPECIAL_VAL_THIS <==>
              frame.locals.Some? && v < |frame.locals.value| && frame.locals.value[v] == UninitializedThis)
    ensures r.Ok? ==> r.value.kind == Instrument.SPECIAL_VAL_THIS || r.value.kind == Instrument.SPECIAL_VAL_NORMAL
  {
    match frame.locals
    case None => Ok(Pushed(Instrument.SPECIAL_VAL_NORMAL, NullObj))
    case Some(locals) =>
      var t := if v < |locals| then locals[v] else Ref(".");
      if t == UninitializedThis then Ok(Pushed(Instrument.SPECIAL_VAL_THIS, NullObj))
      else if t == Null then Ok(Pushed(Instrument.SPECIAL_VAL_NORMAL, NullObj))
      else if t == Ref(".") then Ok(Pushed(Instrument.SPECIAL_VAL_NORMAL, NullObj))
      else if !IsPrimitive(t) && t != Top then Ok(Pushed(Instrument.SPECIAL_VAL_NORMAL, LocalObj(v)))
      else if t == Top then Ok(Pushed(Instrument.SPECIAL_VAL_NORMAL, NullObj))
      else Err(Runtime("can not instrument primitive types"))
  }

  /** What `pushKindAndObjectAtDepth(depth)` emits, and whether it throws. */
  datatype Emission = Emission(code: seq<Insn>, thrown: Option<JavaException>)

  /** `pushKindAndObjectAtDepth` as written: `case 1` has no `break`, so
      after emitting `DUP2; POP` it falls into `default` and throws. */
  function KindAndObjectAtDepthAsWritten(frame: Frame, depth: nat): Emission {
    match frame.stack
    case None => Emission(KindObjCode(Pushed(Instrument.SPECIAL_VAL_NORMAL, NullObj)), None)
    case Some(stack) =>
      if |stack| - 1 - depth < 0 then Emission([], Some(IndexOutOfBounds))
      else if stack[|stack| - 1 - depth] == UninitializedThis then
        Emission(KindObjCode(Pushed(Instrument.SPECIAL_VAL_THIS, NullObj)), None)
      else if depth == 0 then Emission([Dup, Ldc(IntC(Instrument.SPECIAL_VAL_NORMAL)), Swap], None)
      else if depth == 1 then Emission([Dup2, Pop], Some(Runtime("don't know how to handle depth 1")))
      else Emission([], Some(Runtime("don't know how to handle depth " + IntToString(depth))))
  }

  /** The fall-through: at depth 1, below an ordinary value, the code as
      written emits half a sequence and throws, where the `DUP2; POP` it
      emits was evidently meant to be followed by the kind and a `SWAP`. */
  lemma AtDepthOneFallsThrough(frame: Frame)
    requires frame.stack.Some? && |frame.stack.value| >= 2
    requires frame.stack.value[|frame.stack.value| - 2] != UninitializedThis
    ensures KindAndObjectAtDepthAsWritten(frame, 1).thrown.Some?
    ensures KindAndObjectAtDepthAsWritten(frame, 1).code == [Dup2, Pop]
    ensures KindAndObjectAtDepth(frame, 1) == Ok(Pushed(Instrument.SPECIAL_VAL_NORMAL, BelowTopObj))
  {
  }

  /** `pushKindAndObjectAtDepth` with the missing `break` restored: depth 1
      pushes NORMAL and a copy of the value below the top. */
  function KindAndObjectAtDepth(frame: Frame, depth: nat): (r: Result<Pushed>)
    // a copy of the stack is passed only with kind NORMAL, taken from the requested depth
    ensures r.Ok? && r.value.obj != NullObj ==>
              r.value.kind == Instrument.SPECIAL_VAL_NORMAL
              && r.value.obj == (if depth == 0 then TopObj else BelowTopObj)
    ensures r.Ok? ==> r.value.obj == NullObj || r.value.obj == TopObj || r.value.obj == BelowTopObj
    ensures r.Err? <==> (frame.stack.Some? &&
                         (depth >= |frame.stack.value| ||
                          (depth >= 2 && frame.stack.value[|frame.stack.value| - 1 - depth] != UninitializedThis)))
    ensures r.Ok? ==> (r.value.kind == Instrument.SPECIAL_VAL_THIS <==>
              frame.stack.Some? && frame.stack.value[|frame.stack.value| - 1 - depth] == UninitializedThis)
  {
    match frame.stack
    case None => Ok(Pushed(Instrument.SPECIAL_VAL_NORMAL, NullObj))
    case Some(stack) =>
      if |stack| - 1 - depth < 0 then Err(IndexOutOfBounds)
      else if stack[|stack| - 1 - depth] == UninitializedThis then Ok(Pushed(Instrument.SPECIAL_VAL_THIS, NullObj))
      else if depth == 0 then Ok(Pushed(Instrument.SPECIAL_VAL_NORMAL, TopObj))
      else if depth == 1 then Ok(Pushed(Instrument.SPECIAL_VAL_NORMAL, BelowTopObj))
      else Err(Runtime("don't know how to handle depth " + IntToString(depth)))
  }

  /** Wherever the code as written completes, the corrected pusher emits the
      same code; it differs only at depth 1. */
  lemma AtDepthAgreesWhereWrittenCompletes(frame: Frame, depth: nat)
    requires KindAndObjectAtDepthAsWritten(frame, depth).thrown.None?
    ensures KindAndObjectAtDepth(frame, depth).Ok?
    ensures KindObjCode(KindAndObjectAtDepth(frame, depth).value) == KindAndObjectAtDepthAsWritten(frame, depth).code
  {
  }

  /** The emission of a pair the source computes before emitting anything:
      the pair's code, or nothing and the exception. */
  function PairEmission(r: Result<Pushed>): Emission {
    match r
    case Ok(p) => Emission(KindObjCode(p), None)
    case Err(e) => Emission([], Some(e))
  }

  // ----- the visitor -----------------------------------------------------

  /** An `InstrumentationMV`: the method it rewrites, the frame its analyzer
      reports before the current instruction (the analyzer sits upstream, so
      what this visitor emits does not change it), the last line number seen,
      and the events it has passed downstream, in order. */
  class InstrumentationMV {
    const info: MethodInfo
    var frame: Frame
    var lastVisitedLine: int
    var out: seq<Insn>

    constructor(info: MethodInfo, frame: Frame)
      ensures this.info == info && this.frame == frame
      ensures lastVisitedLine == -1 && out == []
    {
      this.info := info;
      this.frame := frame;
      lastVisitedLine := -1;
      out := [];
    }

    /** Passes one event downstream (`super.visitX(..)`). */
    method Emit(i: Insn)
      modifies this`out
      ensures out == old(out) + [i]
    {
      out := out + [i];
    }

    /** Passes a straight run of events downstream, one `super.visitX(..)`
        after the other. */
    method EmitCode(code: seq<Insn>)
      modifies this`out
      ensures out == old(out) + code
    {
      out := out + code;
    }

    /** `pushThisKindAndObj`. */
    method PushThisKindAndObj() returns (thrown: Option<JavaException>)
      modifies this`out
      ensures thrown == PairEmission(ThisKindAndObj(info, frame)).thrown
      ensures out == old(out) + PairEmission(ThisKindAndObj(info, frame)).code
    {
      if frame.locals.None? {
        var kind := if IsStatic(info) then Instrument.SPECIAL_VAL_STATIC
                    else if info.name == "<init>" then Instrument.SPECIAL_VAL_THIS
                    else Instrument.SPECIAL_VAL_NORMAL;
        Emit(Ldc(IntC(kind)));
        Emit(AconstNull);
      } else if IsStatic(info) {
        Emit(Ldc(IntC(Instrument.SPECIAL_VAL_STATIC)));
        Emit(AconstNull);
      } else if |frame.locals.value| == 0 {
        return Some(IndexOutOfBounds);
      } else if frame.locals.value[0] == UninitializedThis {
        Emit(Ldc(IntC(Instrument.SPECIAL_VAL_THIS)));
        Emit(AconstNull);
      } else {
        Emit(Ldc(IntC(Instrument.SPECIAL_VAL_NORMAL)));
        Emit(Var(ALOAD, 0));
      }
      thrown := None;
    }

    /** `pushKindAndObjectInVar(var)`. */
    method PushKindAndObjectInVar(v: nat) returns (thrown: Option<JavaException>)
      modifies this`out
      ensures thrown == PairEmission(KindAndObjectInVar(frame, v)).thrown
      ensures out == old(out) + PairEmission(KindAndObjectInVar(frame, v)).code
    {
      if frame.locals.None? {
        Emit(Ldc(IntC(Instrument.SPECIAL_VAL_NORMAL)));
        Emit(AconstNull);
        return None;
      }
      var locals := frame.locals.value;
      var t := if v < |locals| then locals[v] else Ref(".");
      if t == UninitializedThis {
        Emit(Ldc(IntC(Instrument.SPECIAL_VAL_THIS)));
        Emit(AconstNull);
      } else if t == Null || t == Ref(".") {
        Emit(Ldc(IntC(Instrument.SPECIAL_VAL_NORMAL)));
        Emit(AconstNull);
      } else if !IsPrimitive(t) && t != Top {
        Emit(Ldc(IntC(Instrument.SPECIAL_VAL_NORMAL)));
        Emit(Var(ALOAD, v));
      } else if t == Top {
        Emit(Ldc(IntC(Instrument.SPECIAL_VAL_NORMAL)));
        Emit(AconstNull);
      } else {
        return Some(Runtime("can not instrument primitive types"));
      }
      thrown := None;
    }

    /** `pushKindAndObjectAtDepth(depth)`, with `case 1` completed. */
    method PushKindAndObjectAtDepth(depth: nat) returns (thrown: Option<JavaException>)
      modifies this`out
      ensures thrown == PairEmission(KindAndObjectAtDepth(frame, depth)).thrown
      ensures out == old(out) + PairEmission(KindAndObjectAtDepth(frame, depth)).code
    {
      if frame.stack.None? {
        Emit(Ldc(IntC(Instrument.SPECIAL_VAL_NORMAL)));
        Emit(AconstNull);
        return None;
      }
      var stack := frame.stack.value;
      if |stack| - 1 - depth < 0 {
        return Some(IndexOutOfBounds);
      }
      if stack[|stack| - 1 - depth] == UninitializedThis {
        Emit(Ldc(IntC(Instrument.SPECIAL_VAL_THIS)));
        Emit(AconstNull);
        return None;
      }
      if depth == 0 {
        Emit(Dup);
      } else if depth == 1 {
        Emit(Dup2);
        Emit(Pop);
      } else {
        return Some(Runtime("don't know how to handle depth " + IntToString(depth)));
      }
      Emit(Ldc(IntC(Instrument.SPECIAL_VAL_NORMAL)));
      Emit(Swap);
      thrown := None;
    }

    /** `pushCallerClassStr`. */
    method PushCallerClassStr()
      modifies this`out
      ensures out == old(out) + [Ldc(StrC(info.className))]
    {
      Emit(Ldc(StrC(info.className)));
    }

    /** `visitLineNumber`: remembers the line and forwards the event. */
    method VisitLineNumber(line: int, start: Label)
      modifies this`lastVisitedLine, this`out
      ensures lastVisitedLine == line
      ensures out == old(out) + [LineNumber(line, start)]
    {
      lastVisitedLine := line;
      Emit(LineNumber(line, start));
    }
  }
}
