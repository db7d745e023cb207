/** `ExitHandler`: reports method exits to the trace sink (`methodExit`).
    A normal exit is reported before each return instruction, at most once
    per source line; at the end of the method it appends a handler block,
    between labels, that reports an exit and rethrows.  The handler's labels
    are emitted, but no exception-table entry is registered for them. */
module ExitHandler {
  import opened Common
  import opened Jvm

  const NI := "NativeInterface"
  const METHOD_EXIT_DESC := "(Ljava/lang/String;Ljava/lang/String;)V"

  /** The `onExit` callback `visitMethod` hands to the handler: the reason
      is pushed and dropped again, then `methodExit(methodName, className)`
      is called. */
  function OnExitCode(methodName: string, className: string, reason: string): seq<Insn> {
    [Ldc(StrC("reason for exit: " + reason)), Pop, Ldc(StrC(methodName)), Ldc(StrC(className)),
     InvokeStatic(NI, "methodExit", METHOD_EXIT_DESC, 2)]
  }

  /** Whatever the reason, the callback's code leaves the stack as it found
      it and makes exactly one call, which names the method and its class. */
  lemma OnExitNeutral(methodName: string, className: string, reason: string, s: Stack, e: seq<Effect>)
    ensures Run(OnExitCode(methodName, className, reason), Machine(s, e))
         == Some(Machine(s, e + [Call(NI, "methodExit", [StrV(methodName), StrV(className)])]))
  {
    var drop := [Ldc(StrC("reason for exit: " + reason)), Pop];
    var names := [Ldc(StrC(methodName)), Ldc(StrC(className))];
    var invoke := [InvokeStatic(NI, "methodExit", METHOD_EXIT_DESC, 2)];
    var s2 := Push(Push(s, StrV(methodName)), StrV(className));
    var m := StepAt(drop, 0, Machine(s, e));
    m := StepAt(drop, 1, m);
    Ldc2Run(StrC(methodName), StrC(className), s, e);
    RunThen(drop, names, Machine(s, e), Machine(s, e));
    Pops2(s, StrV(methodName), StrV(className));
    InvokeRun(NI, "methodExit", METHOD_EXIT_DESC, 2, s2, s, [StrV(methodName), StrV(className)], e);
    RunThen(drop + names, invoke, Machine(s, e), Machine(s2, e));
    assert drop + names + invoke == OnExitCode(methodName, className, reason);
  }

  /** The six return instructions. */
  predicate IsReturn(opcode: int) {
    IRETURN <= opcode <= RETURN
  }

  /** The reason given for a normal exit. */
  function NormalExitReason(opcode: int, line: int): string {
    "normal exit - " + IntToString(opcode) + " " + IntToString(line)
  }

  // ----- the line deduplication -------------------------------------------

  /** The handler's mutable state: the last line number seen, and the lines
      on which an exit was already reported. */
  datatype ExitState = ExitState(lastVisitedLine: int, exitedOnLines: set<int>)

  /** `onMethodExit(opcode)` reports an exit: never for `ATHROW` (the
      handler block covers it), otherwise only on a line not yet reported. */
  predicate ExitFires(st: ExitState, opcode: int) {
    opcode != ATHROW && st.lastVisitedLine !in st.exitedOnLines
  }

  /** The state after `onMethodExit(opcode)`. */
  function AfterMethodExit(st: ExitState, opcode: int): (st': ExitState)
    ensures st'.lastVisitedLine == st.lastVisitedLine
    ensures st.exitedOnLines <= st'.exitedOnLines
    ensures ExitFires(st, opcode) ==> st'.exitedOnLines == st.exitedOnLines + {st.lastVisitedLine}
    ensures !ExitFires(st, opcode) ==> st' == st
  {
    if ExitFires(st, opcode) then st.(exitedOnLines := st.exitedOnLines + {st.lastVisitedLine}) else st
  }

  /** The code `onMethodExit(opcode)` emits. */
  function MethodExitCode(st: ExitState, methodName: string, className: string, opcode: int): seq<Insn> {
    if ExitFires(st, opcode) then OnExitCode(methodName, className, NormalExitReason(opcode, st.lastVisitedLine))
    else []
  }

  /** `ATHROW` emits nothing and changes nothing; once an exit was reported
      on a line, no later `onMethodExit` on that line emits anything. */
  lemma MethodExitOncePerLine(st: ExitState, methodName: string, className: string, opcode: int, next: int)
    ensures MethodExitCode(st, methodName, className, ATHROW) == [] && AfterMethodExit(st, ATHROW) == st
    ensures opcode != ATHROW ==> MethodExitCode(AfterMethodExit(st, opcode), methodName, className, next) == []
    ensures ExitFires(st, opcode) <==> MethodExitCode(st, methodName, className, opcode) != []
  {
  }

  /** The events that change the handler's state. */
  datatype HandlerEvent = InsnEvent(opcode: int) | LineEvent(line: int)

  /** `visitInsn` runs `onMethodExit` for a return; `visitLineNumber`
      remembers the line. */
  function StepState(st: ExitState, ev: HandlerEvent): ExitState {
    match ev
    case InsnEvent(opcode) => if IsReturn(opcode) then AfterMethodExit(st, opcode) else st
    case LineEvent(line) => st.(lastVisitedLine := line)
  }

  /** The line reported by one event, if any. */
  function FiredBy(st: ExitState, ev: HandlerEvent): seq<int> {
    if ev.InsnEvent? && IsReturn(ev.opcode) && ExitFires(st, ev.opcode) then [st.lastVisitedLine] else []
  }

  /** The state after a run of events. */
  function Replay(st: ExitState, evs: seq<HandlerEvent>): ExitState {
    if evs == [] then st else StepState(Replay(st, evs[..|evs| - 1]), evs[|evs| - 1])
  }

  /** The lines on which the events reported a normal exit, in order. */
  function FiredLines(st: ExitState, evs: seq<HandlerEvent>): seq<int> {
    if evs == [] then []
    else FiredLines(st, evs[..|evs| - 1]) + FiredBy(Replay(st, evs[..|evs| - 1]), evs[|evs| - 1])
  }

  /** Over any run of instructions and line numbers, a normal exit is
      reported at most once per line and never on a line reported before
      the run; the set of reported lines only grows, by exactly the lines
      reported. */
  lemma {:induction false} ExitsOncePerLine(st: ExitState, evs: seq<HandlerEvent>)
    ensures Replay(st, evs).exitedOnLines == st.exitedOnLines + (set l | l in FiredLines(st, evs))
    ensures forall i, j | 0 <= i < j < |FiredLines(st, evs)| :: FiredLines(st, evs)[i] != FiredLines(st, evs)[j]
    ensures forall i | 0 <= i < |FiredLines(st, evs)| :: FiredLines(st, evs)[i] !in st.exitedOnLines
  {
    if evs != [] {
      var init := evs[..|evs| - 1];
      var before := Replay(st, init);
      var fired := FiredBy(before, evs[|evs| - 1]);
      ExitsOncePerLine(st, init);
      var prev := FiredLines(st, init);
      assert FiredLines(st, evs) == prev + fired;
      if fired != [] {
        assert fired[0] !in before.exitedOnLines;
        assert forall i | 0 <= i < |prev| :: prev[i] in before.exitedOnLines;
      }
      assert (set l | l in prev + fired) == (set l | l in prev) + (set l | l in fired);
    }
  }

  // ----- the visitor ------------------------------------------------------

  class ExitHandler {
    const methodName: string
    const className: string
    const startTryLabel: Label
    const endTryLabel: Label
    const startHandlerLabel: Label
    const endHandlerLabel: Label
    var lastVisitedLine: int
    var exitedOnLines: set<int>
    var out: seq<Insn>

    function State(): ExitState
      reads this
    {
      ExitState(lastVisitedLine, exitedOnLines)
    }

    /** A new handler: four fresh labels (distinct from each other), no line
        seen yet (`lastVisitedLine` starts at 0) and none reported. */
    constructor(methodName: string, className: string,
                startTry: Label, endTry: Label, startHandler: Label, endHandler: Label)
      requires |{startTry, endTry, startHandler, endHandler}| == 4
      ensures this.methodName == methodName && this.className == className
      ensures startTryLabel == startTry && endTryLabel == endTry
      ensures startHandlerLabel == startHandler && endHandlerLabel == endHandler
      ensures State() == ExitState(0, {}) && out == []
    {
      this.methodName := methodName;
      this.className := className;
      startTryLabel := startTry;
      endTryLabel := endTry;
      startHandlerLabel := startHandler;
      endHandlerLabel := endHandler;
      lastVisitedLine := 0;
      exitedOnLines := {};
      out := [];
    }

    /** `visitCode`: the event, then the start of the covered range. */
    method VisitCode()
      modifies this`out
      ensures out == old(out) + [Begin, Mark(startTryLabel)]
    {
      out := out + [Begin, Mark(startTryLabel)];
    }

    /** `onMethodExit(opcode)`. */
    method OnMethodExit(opcode: int)
      modifies this`out, this`exitedOnLines
      ensures State() == AfterMethodExit(old(State()), opcode)
      ensures out == old(out) + MethodExitCode(old(State()), methodName, className, opcode)
    {
      if opcode == ATHROW {
        return;
      }
      if lastVisitedLine !in exitedOnLines {
        out := out + OnExitCode(methodName, className, NormalExitReason(opcode, lastVisitedLine));
        exitedOnLines := exitedOnLines + {lastVisitedLine};
      }
    }

    /** `visitInsn(opcode)`: a return is preceded by `onMethodExit`. */
    method VisitInsn(opcode: int)
      modifies this`out, this`exitedOnLines
      ensures State() == StepState(old(State()), InsnEvent(opcode))
      ensures out == old(out) + (if IsReturn(opcode) then MethodExitCode(old(State()), methodName, className, opcode)
                                 else []) + [InsnOf(opcode)]
    {
      if IsReturn(opcode) {
        OnMethodExit(opcode);
      }
      out := out + [InsnOf(opcode)];
    }

    /** `visitLineNumber`. */
    method VisitLineNumber(line: int, start: Label)
      modifies this`lastVisitedLine, this`out
      ensures State() == StepState(old(State()), LineEvent(line))
      ensures out == old(out) + [LineNumber(line, start)]
    {
      lastVisitedLine := line;
      out := out + [LineNumber(line, start)];
    }

    /** `visitMaxs`: the end of the covered range, a jump over the handler,
        the handler (report and rethrow), its end, then the event.  The
        exception exit is reported whatever lines were reported before. */
    method VisitMaxs(maxStack: int, maxLocals: int)
      modifies this`out, this`exitedOnLines
      ensures State() == old(State())
      ensures out == old(out) + [Mark(endTryLabel), Goto(endHandlerLabel), Mark(startHandlerLabel)]
                    + OnExitCode(methodName, className, "exception being thrown")
                    + [Athrow, Mark(endHandlerLabel), Maxs(maxStack, maxLocals)]
    {
      out := out + [Mark(endTryLabel), Goto(endHandlerLabel), Mark(startHandlerLabel)];
      out := out + OnExitCode(methodName, className, "exception being thrown");
      VisitInsn(ATHROW);
      out := out + [Mark(endHandlerLabel), Maxs(maxStack, maxLocals)];
    }
  }
}
