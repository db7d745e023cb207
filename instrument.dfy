/** The agent's entry point (`Instrument`): the configuration flags read from
    system properties, the value-kind constants shared with the trace sink,
    the decision whether and how a class is rewritten, and the log of classes
    whose rewriting failed. */
module Instrument {
  import opened Common
  import Util

  // ----- value kinds ------------------------------------------------------

  /** How a reference handed to the trace sink is to be read. */
  const SPECIAL_VAL_NORMAL := 0           // an ordinary object (or null)
  const SPECIAL_VAL_THIS := 1             // `this` before its constructor ran
  const SPECIAL_VAL_STATIC := 2           // no object: a static context
  const SPECIAL_VAL_NOT_IMPLEMENTED := 3  // a value the rewriter does not supply
  const SPECIAL_VAL_JVM := 4              // the JVM calling `main`
  const SPECIAL_VAL_MAX := 5

  // ----- configuration ----------------------------------------------------

  /** The system properties visible to the agent. */
  type Properties = map<string, string>

  /** `System.getProperty(key, default).equals("true")`. */
  function Flag(props: Properties, key: string, default: string): bool {
    (if key in props then props[key] else default) == "true"
  }

  /** The read-once flags of `Instrument`. */
  datatype Config = Config(
    enabled: bool,
    tracing: bool,
    checking: bool,
    instrumentFields: bool,
    instrumentVars: bool,
    instrumentMethods: bool,
    enableComments: bool,
    loudWarnings: bool)

  function ConfigOf(props: Properties): Config {
    Config(
      Flag(props, "org.spencer.instrumentation.enable", "true"),
      Flag(props, "org.spencer.instrumentation.tracing.enable", "true"),
      Flag(props, "org.spencer.instrumentation.checking.enable", "true"),
      Flag(props, "org.spencer.instrumentation.fields.enable", "true"),
      Flag(props, "org.spencer.instrumentation.variables.enable", "true"),
      Flag(props, "org.spencer.instrumentation.methods.enable", "true"),
      Flag(props, "org.spencer.instrumentation.comments.enable", "false"),
      Flag(props, "org.spencer.instrumentation.warnings.loud", "true"))
  }

  /** A flag whose default is "true" is on unless its property is set to
      something else; `enableComments`, whose default is "false", is on only
      when its property is set to exactly "true". */
  lemma ConfigFlags(props: Properties)
    ensures ConfigOf(props).enabled
        <==> ("org.spencer.instrumentation.enable" in props ==> props["org.spencer.instrumentation.enable"] == "true")
    ensures ConfigOf(props).tracing
        <==> ("org.spencer.instrumentation.tracing.enable" in props ==> props["org.spencer.instrumentation.tracing.enable"] == "true")
    ensures ConfigOf(props).checking
        <==> ("org.spencer.instrumentation.checking.enable" in props ==> props["org.spencer.instrumentation.checking.enable"] == "true")
    ensures ConfigOf(props).instrumentFields
        <==> ("org.spencer.instrumentation.fields.enable" in props ==> props["org.spencer.instrumentation.fields.enable"] == "true")
    ensures ConfigOf(props).instrumentVars
        <==> ("org.spencer.instrumentation.variables.enable" in props ==> props["org.spencer.instrumentation.variables.enable"] == "true")
    ensures ConfigOf(props).instrumentMethods
        <==> ("org.spencer.instrumentation.methods.enable" in props ==> props["org.spencer.instrumentation.methods.enable"] == "true")
    ensures ConfigOf(props).loudWarnings
        <==> ("org.spencer.instrumentation.warnings.loud" in props ==> props["org.spencer.instrumentation.warnings.loud"] == "true")
    ensures ConfigOf(props).enableComments
        <==> ("org.spencer.instrumentation.comments.enable" in props && props["org.spencer.instrumentation.comments.enable"] == "true")
  {
  }

  /** With no properties set, everything is on except the comments. */
  lemma DefaultConfig()
    ensures ConfigOf(map[]) == Config(true, true, true, true, true, true, false, true)
  {
  }

  // ----- isInterface -----------------------------------------------------

  const ACC_INTERFACE: bv32 := 0x0200

  /** `isInterface` as written: `(access | ACC_INTERFACE) != 0`. */
  function IsInterfaceAsWritten(access: bv32): bool {
    (access | ACC_INTERFACE) != 0
  }

  /** The test as written holds for every class, interface or not: a public
      class (access `ACC_PUBLIC | ACC_SUPER`) is reported as an interface. */
  lemma IsInterfaceAsWrittenAlwaysTrue(access: bv32)
    ensures IsInterfaceAsWritten(access)
    ensures IsInterfaceAsWritten(0x0021) && 0x0021 & ACC_INTERFACE == 0
  {
  }

  /** The evident intent: the `ACC_INTERFACE` bit is set. */
  function IsInterface(access: bv32): bool {
    access & ACC_INTERFACE != 0
  }

  /** The corrected test separates an ordinary public class from a public
      interface (`ACC_PUBLIC | ACC_INTERFACE | ACC_ABSTRACT`): it holds exactly
      when the `ACC_INTERFACE` bit is set, setting that bit makes it hold,
      clearing it makes it fail, and no other bit matters. */
  lemma IsInterfaceSeparates(access: bv32)
    ensures !IsInterface(0x0021) && IsInterface(0x0601)
    ensures IsInterface(access) <==> access & ACC_INTERFACE == ACC_INTERFACE
    ensures IsInterface(access | ACC_INTERFACE) && !IsInterface(access & 0xFFFF_FDFF)
    ensures IsInterface(access) == IsInterface(access & ACC_INTERFACE)
  {
    assert IsInterface(access) <==> access & ACC_INTERFACE == ACC_INTERFACE;
    assert IsInterface(access | ACC_INTERFACE);
    assert !IsInterface(access & 0xFFFF_FDFF);
  }

  // ----- transform -------------------------------------------------------

  type Bytes = seq<bv8>

  /** What `transform` returns for a class named `className` whose bytes are
      `byteCode`.  `rewrite` is the outcome of running the rewriting visitor
      chain over the class (the class reader and writer are not part of this
      model): the rewritten bytes, or the `RuntimeException` it threw. */
  function TransformedBytes(cfg: Config, className: string, byteCode: Bytes, rewrite: Result<Bytes>): Bytes {
    if !cfg.enabled then byteCode
    else if Util.IsBlacklisted(className) then byteCode
    else match rewrite
      case Ok(bytes) => bytes
      case Err(_) => byteCode
  }

  /** The entries `transform` adds to the error log: one, for a rewrite that
      threw; none otherwise. */
  function LoggedErrors(cfg: Config, className: string, rewrite: Result<Bytes>): seq<string> {
    if !cfg.enabled || Util.IsBlacklisted(className) then []
    else match rewrite
      case Ok(_) => []
      case Err(ex) => [ErrorEntry(className, ex)]
  }

  /** `className + ": " + ex.getMessage()`. */
  function ErrorEntry(className: string, ex: JavaException): string {
    className + ": " + ex.Message()
  }

  /** The three ways out of `transform`, in the order they are checked: a
      disabled agent and a blacklisted class return the input and log
      nothing; otherwise a failed rewrite returns the input and logs exactly
      one entry, and a successful one returns the rewritten bytes. */
  lemma TransformPolicy(cfg: Config, className: string, byteCode: Bytes, rewrite: Result<Bytes>)
    ensures !cfg.enabled ==>
              TransformedBytes(cfg, className, byteCode, rewrite) == byteCode
              && LoggedErrors(cfg, className, rewrite) == []
    ensures cfg.enabled && Util.IsBlacklisted(className) ==>
              TransformedBytes(cfg, className, byteCode, rewrite) == byteCode
              && LoggedErrors(cfg, className, rewrite) == []
    ensures cfg.enabled && !Util.IsBlacklisted(className) && rewrite.Err? ==>
              TransformedBytes(cfg, className, byteCode, rewrite) == byteCode
              && LoggedErrors(cfg, className, rewrite) == [ErrorEntry(className, rewrite.error)]
    ensures cfg.enabled && !Util.IsBlacklisted(className) && rewrite.Ok? ==>
              TransformedBytes(cfg, className, byteCode, rewrite) == rewrite.value
              && LoggedErrors(cfg, className, rewrite) == []
  {
  }

  /** At most one entry per call, and an entry always names the class. */
  lemma LoggedErrorsShape(cfg: Config, className: string, rewrite: Result<Bytes>)
    ensures |LoggedErrors(cfg, className, rewrite)| <= 1
    ensures forall k | 0 <= k < |LoggedErrors(cfg, className, rewrite)| ::
              StartsWith(LoggedErrors(cfg, className, rewrite)[k], className + ": ")
  {
    var log := LoggedErrors(cfg, className, rewrite);
    if log != [] {
      var entry := ErrorEntry(className, rewrite.error);
      assert entry[..|className + ": "|] == className + ": ";
    }
  }

  /** The static state of `Instrument`: the configuration and the error log. */
  class Agent {
    const cfg: Config
    var errors: seq<string>

    constructor(props: Properties)
      ensures cfg == ConfigOf(props) && errors == []
    {
      cfg := ConfigOf(props);
      errors := [];
    }

    /** `logError`: appends one entry; `ArrayList.add` answers true. */
    method LogError(className: string, ex: JavaException) returns (added: bool)
      modifies this
      ensures errors == old(errors) + [ErrorEntry(className, ex)]
      ensures added
    {
      errors := errors + [className + ": " + ex.Message()];
      added := true;
    }

    /** `getErrors`: the log itself. */
    method GetErrors() returns (log: seq<string>)
      ensures log == errors
    {
      log := errors;
    }

    /** `transform`: the checks in order, then the rewrite or the fallback. */
    method Transform(byteCode: Bytes, className: string, rewrite: Result<Bytes>) returns (result: Bytes)
      modifies this
      ensures result == TransformedBytes(cfg, className, byteCode, rewrite)
      ensures errors == old(errors) + LoggedErrors(cfg, className, rewrite)
    {
      if !cfg.enabled {
        return byteCode;
      }
      var blacklisted := Util.IsClassNameBlacklisted(className);
      if blacklisted {
        return byteCode;
      }
      match rewrite {
        case Ok(bytes) =>
          result := bytes;
        case Err(ex) =>
          var _ := LogError(className, ex);
          result := byteCode;
      }
    }
  }
}
