/** `InstrumentationVisitor`, the class visitor: the descriptor tests the
    rewriters share, and the chain of method visitors `visitMethod` builds
    for every method of the class. */
module InstrumentationVisitor {
  import opened Common
  import Jvm
  import Instrument

  /** `isArrayType(desc)`: `desc.charAt(0) == '['`, which throws on "". */
  function IsArrayType(desc: string): (r: Result<bool>)
    ensures r.Err? <==> desc == []
    ensures r.Ok? ==> (r.value <==> StartsWith(desc, "["))
  {
    if |desc| == 0 then Err(IndexOutOfBounds) else Ok(desc[0] == '[')
  }

  /** `isObjectType(desc)`: `desc.charAt(0) == 'L'`. */
  function IsObjectType(desc: string): (r: Result<bool>)
    ensures r.Err? <==> desc == []
    ensures r.Ok? ==> (r.value <==> StartsWith(desc, "L"))
  {
    if |desc| == 0 then Err(IndexOutOfBounds) else Ok(desc[0] == 'L')
  }

  /** `isObjectType(desc) || isArrayType(desc)`, evaluated left to right:
      the descriptor of a reference (a class or an array). */
  function IsReferenceType(desc: string): (r: Result<bool>)
    ensures r.Err? <==> desc == []
    ensures r.Ok? ==> (r.value <==> StartsWith(desc, "L") || StartsWith(desc, "["))
  {
    match IsObjectType(desc)
    case Err(e) => Err(e)
    case Ok(isObject) => if isObject then Ok(true) else IsArrayType(desc)
  }

  // ----- visitMethod ------------------------------------------------------

  /** A visitor in the chain a method's events flow through. */
  datatype Stage =
    | JsrInliner      // JSRInlinerAdapter
    | Analyzer        // AnalyzerAdapter, which computes the frame for the rewriter after it
    | FieldRewriter   // FieldMV
    | VarRewriter     // VarMV
    | Sorter          // TryCatchBlockSorter
    | ExitRewriter    // ExitHandler
    | MethodRewriter  // MethodMV
    | Writer          // the class writer's method visitor

  predicate IsSynthetic(access: bv32) {
    access & Jvm.ACC_SYNTHETIC != 0
  }

  /** The chain for a method, first visitor first: a synthetic method goes
      straight to the writer; otherwise each enabled rewriter, behind its own
      analyzer, is put in front of the chain built so far (methods, then
      variables, then fields), and the JSR inliner in front of all. */
  function MethodChain(cfg: Instrument.Config, access: bv32): seq<Stage> {
    if IsSynthetic(access) then [Writer]
    else [JsrInliner]
         + (if cfg.instrumentFields then [Analyzer, FieldRewriter] else [])
         + (if cfg.instrumentVars then [Analyzer, VarRewriter] else [])
         + (if cfg.instrumentMethods then [Analyzer, Sorter, ExitRewriter, MethodRewriter] else [])
         + [Writer]
  }

  /** The chain ends at the writer, and a rewriter is in it exactly when
      its flag is on and the method is not synthetic. */
  lemma MethodChainMembers(cfg: Instrument.Config, access: bv32)
    ensures var c := MethodChain(cfg, access);
            c[|c| - 1] == Writer
            && (IsSynthetic(access) ==> c == [Writer])
            && (!IsSynthetic(access) ==> c[0] == JsrInliner)
            && (FieldRewriter in c <==> !IsSynthetic(access) && cfg.instrumentFields)
            && (VarRewriter in c <==> !IsSynthetic(access) && cfg.instrumentVars)
            && (MethodRewriter in c <==> !IsSynthetic(access) && cfg.instrumentMethods)
            && (ExitRewriter in c <==> MethodRewriter in c)
  {
  }

  /** Events meet the field, variable, exit and method rewriters in that
      order, and the exit handler passes them straight to `MethodMV`. */
  lemma MethodChainOrder(cfg: Instrument.Config, access: bv32)
    ensures var c := MethodChain(cfg, access);
            forall i, j | 0 <= i < |c| && 0 <= j < |c| ::
              (c[i] == FieldRewriter && (c[j] == VarRewriter || c[j] == ExitRewriter) ==> i < j)
              && (c[i] == VarRewriter && c[j] == ExitRewriter ==> i < j)
              && (c[i] == ExitRewriter && c[j] == MethodRewriter ==> i + 1 == j)
  {
  }

  /** The field and variable rewriters and the exit handler's sorter each
      have an analyzer right in front of them, which computes the frames
      they read. */
  lemma MethodChainAnalyzers(cfg: Instrument.Config, access: bv32)
    ensures var c := MethodChain(cfg, access);
            forall i | 0 <= i < |c| && (c[i] == FieldRewriter || c[i] == VarRewriter || c[i] == Sorter) ::
              0 < i && c[i - 1] == Analyzer
  {
  }

  /** `FieldMV` passes its events to an analyzer exactly when a later
      rewriter is on; otherwise its downstream visitor has no frame. */
  lemma FieldRewriterDownstream(cfg: Instrument.Config, access: bv32)
    ensures var c := MethodChain(cfg, access);
            forall i | 0 <= i < |c| && c[i] == FieldRewriter ::
              i + 1 < |c| && (c[i + 1] == Analyzer <==> cfg.instrumentVars || cfg.instrumentMethods)
  {
  }

  /** The class visitor's own state: the class name `visit` records and the
      source file name `visitSource` records (`None` until then, Java's
      `null`). */
  class InstrumentationVisitor {
    var classname: Option<string>
    var sourceFileName: Option<string>

    constructor()
      ensures classname == None && sourceFileName == None
    {
      classname := None;
      sourceFileName := None;
    }

    /** `visit`: remembers the class name. */
    method Visit(name: string)
      modifies this`classname
      ensures classname == Some(name)
    {
      classname := Some(name);
    }

    /** `visitSource`: remembers the source file name. */
    method VisitSource(source: string)
      modifies this`sourceFileName
      ensures sourceFileName == Some(source)
    {
      sourceFileName := Some(source);
    }

    /** `visitMethod`: builds the chain from the writer backwards, as the
        source does. */
    method VisitMethod(cfg: Instrument.Config, access: bv32) returns (chain: seq<Stage>)
      ensures chain == MethodChain(cfg, access)
    {
      var acc := [Writer];
      if IsSynthetic(access) {
        return acc;
      }
      if cfg.instrumentMethods {
        acc := [Analyzer, Sorter, ExitRewriter, MethodRewriter] + acc;
      }
      if cfg.instrumentVars {
        acc := [Analyzer, VarRewriter] + acc;
      }
      if cfg.instrumentFields {
        acc := [Analyzer, FieldRewriter] + acc;
      }
      chain := [JsrInliner] + acc;
    }
  }
}
