# Spencer instrumentation, modelled in Dafny

Spencer's instrumentation agent rewrites JVM class files so that the running
program reports its heap activity to a trace sink, the class
`NativeInterface`. The model covers the following parts of the agent:

- **`Instrument`**: the agent's entry point. It covers the configuration flags
  read from system properties, the decision whether a class is rewritten
  (`transform`), the interface test, and the log of classes whose rewriting
  threw.
- **`Util`**: the class-name blacklist.
- **`NativeInterface`**: the value-kind constants and their names, the
  rendering of a value with its kind, and the two array hooks that report an
  array element as the field `_i` of the array.
- **`InstrumentationVisitor`**: the class visitor. It covers the class name and
  source file it records, the descriptor tests, and the chain of method
  visitors that `visitMethod` builds for every method.
- **`InstrumentationMV`**: the base of the rewriting method visitors. It holds
  the code that pushes a (kind, object) pair for the running method's
  receiver, for a local variable, and for a value on the operand stack.
- **`FieldMV`**: reports array element loads and stores, and field reads and
  writes, to `readArray`, `modifyArray`, `loadArrayA`, `storeArrayA`, `read`,
  `modify`, `loadFieldA` and `storeFieldA`.
- **`VarMV`**: reports loads and stores of reference locals to `loadVar` and
  `storeVar`.
- **`MethodMV`**: covers the following.
  - Method entry: `afterInitMethod` in constructors, then `methodEnter` with
    an array holding the arguments.
  - The fake constructor calls reported for every `NEWARRAY` and `ANEWARRAY`.
- **`ExitHandler`**: reports method exits, at most once per source line, and
  emits a final handler block that reports an exit and rethrows.

Every rewriter is a class whose methods append the events they pass downstream
(`super.visitX(..)`) to a sequence `out`. Each method is proved equal to a
function that gives the emitted code, together with the exception the source
throws when rewriting fails. That code is then run on a small symbolic JVM
(`Jvm.Run`). The JVM's stack holds symbolic values, such as "the reference in
local 3" or "element `i` of array `a`". The machine records every
`NativeInterface` call and every array store in order.

The main properties proved are these:

- **Transparency.** Whatever a rewriter inserts before an instruction leaves
  the operand stack exactly as it found it. The instruction itself is then
  forwarded unchanged.
- **Arguments of each call.** Each inserted call receives the arguments the
  sink expects. For example, `storeArrayA` receives the element that the
  store is about to overwrite.
- **Failures.** Rewriting throws under exactly the conditions the source
  throws.
- **Once per line.** Exits are reported at most once per source line.
- **Visitor chain.** The chain of method visitors has the order and the
  analyzers the rewriters depend on.

Section numbers of the Java Virtual Machine Specification (Java SE 8) are cited
where the model relies on it:

- the slot sizes of long and double (section 2.6.1);
- the table of `NEWARRAY` type codes (section 6.5, newarray);
- the operand of `ANEWARRAY` (section 6.5, anewarray).

## Model

| member | source | states |
|---|---|---|
| Instrument.ConfigFlags | src/main/java/com/github/kaeluka/spencer/instrumentation/Instrument.java:18-27 | each of the eight flags is on exactly when its property, or its default when unset, equals "true": `enabled`, `tracing`, `checking`, `instrumentFields`, `instrumentVars`, `instrumentMethods` and `loudWarnings` (default "true") are on unless their property is set to something else; `enableComments` (default "false") is on only when set to exactly "true" |
| Instrument.DefaultConfig | src/main/java/com/github/kaeluka/spencer/instrumentation/Instrument.java:18-27 | with no properties set every flag is on except comments |
| Instrument.IsInterfaceAsWrittenAlwaysTrue | src/main/java/com/github/kaeluka/spencer/instrumentation/Instrument.java:59-61 | the test as written holds for every access word, including a plain public class |
| Instrument.IsInterfaceSeparates | src/main/java/com/github/kaeluka/spencer/instrumentation/Instrument.java:59-61 | the corrected test holds exactly when the `ACC_INTERFACE` bit is set; it separates a public class (0x0021) from a public interface (0x0601), setting the bit makes it hold, clearing it makes it fail, and no other bit matters |
| Instrument.TransformPolicy | src/main/java/com/github/kaeluka/spencer/instrumentation/Instrument.java:63-91 | disabled agent or blacklisted class: input returned, nothing logged; failed rewrite: input returned, one entry logged; otherwise the rewritten bytes |
| Instrument.LoggedErrorsShape | src/main/java/com/github/kaeluka/spencer/instrumentation/Instrument.java:86-95 | a call logs at most one entry, and every entry starts with the class name and ": " |
| Instrument.Agent.constructor | src/main/java/com/github/kaeluka/spencer/instrumentation/Instrument.java:18-53 | the configuration is read from the properties and the error log starts empty |
| Instrument.Agent.LogError | src/main/java/com/github/kaeluka/spencer/instrumentation/Instrument.java:93-95 | appends `className + ": " + message` to the log and answers true |
| Instrument.Agent.GetErrors | src/main/java/com/github/kaeluka/spencer/instrumentation/Instrument.java:97-99 | returns the log |
| Instrument.Agent.Transform | src/main/java/com/github/kaeluka/spencer/instrumentation/Instrument.java:63-91 | returns the bytes `TransformPolicy` describes and appends exactly the entries it describes |
| Util.IsClassNameBlacklisted | src/main/java/org/spencer/instrumentation/Util.java:6-45 | the loop answers true exactly when some blacklist entry occurs in the name |
| Util.BlacklistMonotone | src/main/java/org/spencer/instrumentation/Util.java:37-42 | a name containing a blacklisted name is blacklisted |
| Util.NativeInterfaceBlacklisted | src/main/java/org/spencer/instrumentation/Util.java:15 | every name mentioning `NativeInterface` is blacklisted, so the sink is never rewritten |
| Util.StringBuilderBlacklisted | src/main/java/org/spencer/instrumentation/Util.java:24 | `java/lang/StringBuilder` is blacklisted through the entry `java/lang/String` |
| Util.DotClassEntries | src/main/java/org/spencer/instrumentation/Util.java:16-19 | the four `.class` entries match only names containing `.class` |
| Util.MissingChar | src/main/java/org/spencer/instrumentation/Util.java:38 | an entry holding a character the name lacks does not occur in the name |
| Util.HashMapNotBlacklisted | src/main/java/org/spencer/instrumentation/Util.java:7-36 | `java/util/HashMap` itself is not blacklisted |
| NativeInterface.KindsAgree | src/main/java/NativeInterface.java:5-10 | the sink's kind constants equal the rewriter's and are pairwise distinct |
| NativeInterface.ValKindToString | src/main/java/NativeInterface.java:24-26 | a name is returned exactly for the six kinds 0..5, null otherwise |
| NativeInterface.KindNamesDistinct | src/main/java/NativeInterface.java:14-22 | distinct kinds have distinct names |
| NativeInterface.KindNames | src/main/java/NativeInterface.java:14-22 | the six names as the static initialiser spells them |
| NativeInterface.ValAndValKindToStringCases | src/main/java/NativeInterface.java:28-42 | NORMAL prints the value, or `NULL:type` and a tab; THIS and STATIC print the kind's name and the type; any other kind prints its name, or "null", and a tab |
| NativeInterface.ElementFieldNameInjective | src/main/java/NativeInterface.java:56 | different indices are reported as different field names `_i` |
| NativeInterface.LoadArrayADelegates | src/main/java/NativeInterface.java:46-57 | for any non-empty class, `loadArrayA` reports a `loadFieldA` of field `_idx` of a NORMAL holder with the class minus its first character as type (for an array class, minus its `[`); every other argument is passed on |
| NativeInterface.StoreArrayADelegates | src/main/java/NativeInterface.java:59-71 | the same for `storeArrayA` and `storeFieldA`, with the new and the old value passed on |
| NativeInterface.ArrayHooksRejectEmptyClass | src/main/java/NativeInterface.java:55 | an empty class name makes both hooks throw (`substring(1)`) |
| InstrumentationVisitor.IsArrayType | src/main/java/com/github/kaeluka/spencer/instrumentation/InstrumentationVisitor.java:34-36 | throws exactly on the empty descriptor; otherwise true iff it starts with `[` |
| InstrumentationVisitor.IsObjectType | src/main/java/com/github/kaeluka/spencer/instrumentation/InstrumentationVisitor.java:38-41 | throws exactly on the empty descriptor; otherwise true iff it starts with `L` |
| InstrumentationVisitor.IsReferenceType | src/main/java/com/github/kaeluka/spencer/instrumentation/InstrumentationVisitor.java:562 | `isObjectType(d)` or else `isArrayType(d)`: throws exactly on "", otherwise true iff `d` starts with `L` or `[` |
| InstrumentationVisitor.MethodChainMembers | src/main/java/com/github/kaeluka/spencer/instrumentation/InstrumentationVisitor.java:51-99 | the chain ends at the writer; a synthetic method gets the writer alone; otherwise it starts with the JSR inliner and holds each rewriter exactly when its flag is on, the exit handler exactly with `MethodMV` |
| InstrumentationVisitor.MethodChainOrder | src/main/java/com/github/kaeluka/spencer/instrumentation/InstrumentationVisitor.java:60-95 | events meet the field, variable and exit rewriters in that order, and the exit handler forwards straight to `MethodMV` |
| InstrumentationVisitor.MethodChainAnalyzers | src/main/java/com/github/kaeluka/spencer/instrumentation/InstrumentationVisitor.java:74-94 | the field and variable rewriters and the exit handler's sorter each have an analyzer right before them |
| InstrumentationVisitor.FieldRewriterDownstream | src/main/java/com/github/kaeluka/spencer/instrumentation/InstrumentationVisitor.java:88-95 | `FieldMV` forwards to an analyzer exactly when the variable or method rewriter is on |
| InstrumentationVisitor.InstrumentationVisitor.constructor | src/main/java/com/github/kaeluka/spencer/instrumentation/InstrumentationVisitor.java:13-18 | class and source file names start unset |
| InstrumentationVisitor.InstrumentationVisitor.Visit | src/main/java/com/github/kaeluka/spencer/instrumentation/InstrumentationVisitor.java:44-48 | records the class name |
| InstrumentationVisitor.InstrumentationVisitor.VisitSource | src/main/java/com/github/kaeluka/spencer/instrumentation/InstrumentationVisitor.java:25-28 | records the source file name |
| InstrumentationVisitor.InstrumentationVisitor.VisitMethod | src/main/java/com/github/kaeluka/spencer/instrumentation/InstrumentationVisitor.java:51-99 | the chain built backwards from the writer is `MethodChain` |
| Jvm.DescSize | src/main/java/com/github/kaeluka/spencer/instrumentation/InstrumentationVisitor.java:969 | a field descriptor's value takes one or two slots, two exactly for long and double |
| Jvm.SwapCodeSwaps | src/main/java/com/github/kaeluka/spencer/instrumentation/InstrumentationVisitor.java:619 | `swap(prev, type)` exchanges the top two values for every combination of one- and two-slot values |
| InstrumentationMv.KindObjCodePushes | src/main/java/com/github/kaeluka/spencer/instrumentation/InstrumentationVisitor.java:206-343 | each shape of pair code pushes exactly the kind and the object (null, a local, or a copy of the top or of the value beneath it) and calls nothing |
| InstrumentationMv.RunAround | src/main/java/com/github/kaeluka/spencer/instrumentation/InstrumentationVisitor.java:206-343 | code emitted around a pair runs as if the kind and the object had been pushed in its middle |
| InstrumentationMv.ThisKindAndObj | src/main/java/com/github/kaeluka/spencer/instrumentation/InstrumentationVisitor.java:206-237 | throws exactly for an instance method with empty locals; STATIC iff static; THIS iff local 0 is uninitialised `this` (or, for unreachable code, the method is `<init>`); the receiver is loaded, as NORMAL, exactly when it is initialised |
| InstrumentationMv.KindAndObjectInVar | src/main/java/com/github/kaeluka/spencer/instrumentation/InstrumentationVisitor.java:253-308 | throws exactly for a primitive local; THIS iff the local is uninitialised `this`; the local is loaded only as NORMAL and only when it holds a reference |
| InstrumentationMv.AtDepthOneFallsThrough | src/main/java/com/github/kaeluka/spencer/instrumentation/InstrumentationVisitor.java:334-339 | as written, depth 1 below an ordinary value emits `DUP2; POP` and throws; the corrected pusher passes that value as NORMAL |
| InstrumentationMv.KindAndObjectAtDepth | src/main/java/com/github/kaeluka/spencer/instrumentation/InstrumentationVisitor.java:310-344 | throws exactly when the depth is outside the known stack or is 2 or more on an ordinary value; THIS iff the entry is uninitialised `this`; otherwise a copy from the requested depth as NORMAL |
| InstrumentationMv.AtDepthAgreesWhereWrittenCompletes | src/main/java/com/github/kaeluka/spencer/instrumentation/InstrumentationVisitor.java:310-344 | wherever the code as written completes, the corrected pusher emits the same code |
| InstrumentationMv.InstrumentationMV.constructor | src/main/java/com/github/kaeluka/spencer/instrumentation/InstrumentationVisitor.java:120 | no line seen yet (`lastVisitedLine` is -1) and nothing emitted |
| InstrumentationMv.InstrumentationMV.PushThisKindAndObj | src/main/java/com/github/kaeluka/spencer/instrumentation/InstrumentationVisitor.java:206-237 | emits the code of `ThisKindAndObj` and throws as it says |
| InstrumentationMv.InstrumentationMV.PushKindAndObjectInVar | src/main/java/com/github/kaeluka/spencer/instrumentation/InstrumentationVisitor.java:253-308 | emits the code of `KindAndObjectInVar` and throws as it says |
| InstrumentationMv.InstrumentationMV.PushKindAndObjectAtDepth | src/main/java/com/github/kaeluka/spencer/instrumentation/InstrumentationVisitor.java:310-344 | emits the code of the corrected `KindAndObjectAtDepth` and throws as it says |
| InstrumentationMv.InstrumentationMV.PushCallerClassStr | src/main/java/com/github/kaeluka/spencer/instrumentation/InstrumentationVisitor.java:346-348 | pushes the class name |
| InstrumentationMv.InstrumentationMV.VisitLineNumber | src/main/java/com/github/kaeluka/spencer/instrumentation/InstrumentationVisitor.java:152-155 | remembers the line and forwards the event |
| FieldMv.LoadArrayPrimitiveNeutral | src/main/java/com/github/kaeluka/spencer/instrumentation/InstrumentationVisitor.java:408-425 | keeps `.. arr, idx` and calls `readArray(arr, idx, callerKind, caller, callerClass)` |
| FieldMv.ValBelowRun | src/main/java/com/github/kaeluka/spencer/instrumentation/InstrumentationVisitor.java:428-438 | moves a one- or two-slot value below `arr, idx` |
| FieldMv.ValAboveRun | src/main/java/com/github/kaeluka/spencer/instrumentation/InstrumentationVisitor.java:455-463 | moves it back on top |
| FieldMv.StoreArrayPrimitiveNeutral | src/main/java/com/github/kaeluka/spencer/instrumentation/InstrumentationVisitor.java:427-464 | keeps `.. arr, idx, val` for values of either size and calls `modifyArray(arr, idx, callerKind, caller, callerClass)` |
| FieldMv.ArrayHolder | src/main/java/com/github/kaeluka/spencer/instrumentation/InstrumentationVisitor.java:466-477 | a holder class found is an array class, read from the analyzer's stack at the array's depth; unknown stack gives `[Ljava/lang/Object;`; a visitor that is no analyzer throws |
| FieldMv.ArrayHolderFeedsSink | src/main/java/NativeInterface.java:46-71 | a holder class the rewriter computes never makes `loadArrayA` or `storeArrayA` throw |
| FieldMv.ArrayHolderRejectsNonArray | src/main/java/com/github/kaeluka/spencer/instrumentation/InstrumentationVisitor.java:475-477 | a non-array class on a known stack throws `IllegalStateException` |
| FieldMv.ReadElementRun | src/main/java/com/github/kaeluka/spencer/instrumentation/InstrumentationVisitor.java:480-490 | `DUP2; AALOAD` reads the element next to `arr, idx` |
| FieldMv.CopyStoreOperandsRun | src/main/java/com/github/kaeluka/spencer/instrumentation/InstrumentationVisitor.java:478-488 | copies `arr, idx, val` above themselves, value first |
| FieldMv.StoreArrayANeutral | src/main/java/com/github/kaeluka/spencer/instrumentation/InstrumentationVisitor.java:466-505 | keeps `.. arr, idx, newVal` and calls `storeArrayA` with the new value and the element about to be overwritten |
| FieldMv.LoadArrayANeutral | src/main/java/com/github/kaeluka/spencer/instrumentation/InstrumentationVisitor.java:507-545 | keeps `.. arr, idx` and calls `loadArrayA` with the element about to be loaded |
| FieldMv.ReadModifyCallRun | src/main/java/com/github/kaeluka/spencer/instrumentation/InstrumentationVisitor.java:623-650 | the call part passes the callee (or null and STATIC), the owner, the name, the caller pair and class to `read`/`modify` |
| FieldMv.ReadNeutral | src/main/java/com/github/kaeluka/spencer/instrumentation/InstrumentationVisitor.java:607-655 | a primitive read keeps the stack and calls `read` once |
| FieldMv.ModifyNeutral | src/main/java/com/github/kaeluka/spencer/instrumentation/InstrumentationVisitor.java:607-655 | a primitive write keeps `.. callee, newVal` for values of either size and calls `modify` once |
| FieldMv.LoadFieldRun | src/main/java/com/github/kaeluka/spencer/instrumentation/InstrumentationVisitor.java:657-741 | the duplicated load yields the value the forwarded `GETFIELD`/`GETSTATIC` will load |
| FieldMv.LoadFieldANeutral | src/main/java/com/github/kaeluka/spencer/instrumentation/InstrumentationVisitor.java:657-741 | keeps the stack and calls `loadFieldA` with the value about to be loaded and the holder pair |
| FieldMv.NullHolderRun | src/main/java/com/github/kaeluka/spencer/instrumentation/InstrumentationVisitor.java:768-781 | pushes kind, null and a copy of the new value |
| FieldMv.CopyHolderRun | src/main/java/com/github/kaeluka/spencer/instrumentation/InstrumentationVisitor.java:756-767 | pushes NORMAL, the holder and the new value above both |
| FieldMv.OldValueRun | src/main/java/com/github/kaeluka/spencer/instrumentation/InstrumentationVisitor.java:785-798 | pushes the field's value before the store (null inside a constructor) |
| FieldMv.StoreHolderRun | src/main/java/com/github/kaeluka/spencer/instrumentation/InstrumentationVisitor.java:749-781 | the holder part keeps the stack and adds the holder's kind, the holder and the new value |
| FieldMv.StoreFieldANeutral | src/main/java/com/github/kaeluka/spencer/instrumentation/InstrumentationVisitor.java:747-882 | keeps `.. holder, newVal` and calls `storeFieldA` with the new and the old value |
| FieldMv.DownstreamTop | src/main/java/com/github/kaeluka/spencer/instrumentation/InstrumentationVisitor.java:754-755 | the new value's type is readable exactly when the downstream analyzer has a non-empty stack |
| FieldMv.OldValueCheck | src/main/java/com/github/kaeluka/spencer/instrumentation/InstrumentationVisitor.java:785-797 | the old value can be read exactly inside a constructor or when the holder is initialised |
| FieldMv.VisitInsnForwardsOthers | src/main/java/com/github/kaeluka/spencer/instrumentation/InstrumentationVisitor.java:375-406 | an instruction that touches no array is forwarded alone |
| FieldMv.PrimitiveArrayLoadTransparent | src/main/java/com/github/kaeluka/spencer/instrumentation/InstrumentationVisitor.java:395-405 | a primitive array load fails exactly when the caller pair fails; otherwise the report keeps `.. arr, idx` and precedes the load |
| FieldMv.PrimitiveArrayStoreTransparent | src/main/java/com/github/kaeluka/spencer/instrumentation/InstrumentationVisitor.java:382-391 | the same for a store, with the value of the size the opcode implies |
| FieldMv.AaloadTransparent | src/main/java/com/github/kaeluka/spencer/instrumentation/InstrumentationVisitor.java:392-394 | `AALOAD` fails exactly when the holder class or the caller pair fails; otherwise `loadArrayA` precedes the load and the stack is kept |
| FieldMv.AastoreTransparent | src/main/java/com/github/kaeluka/spencer/instrumentation/InstrumentationVisitor.java:379-381 | `AASTORE` likewise, with `storeArrayA` and the element about to be overwritten |
| FieldMv.VisitFieldInsnSkips | src/main/java/com/github/kaeluka/spencer/instrumentation/InstrumentationVisitor.java:551-555 | synthetic fields (a `$` in the name) and unreachable instructions are forwarded alone |
| FieldMv.ReferenceDescSize | src/main/java/com/github/kaeluka/spencer/instrumentation/InstrumentationVisitor.java:562 | a reference descriptor names a one-slot value |
| FieldMv.PrimitiveFieldReadTransparent | src/main/java/com/github/kaeluka/spencer/instrumentation/InstrumentationVisitor.java:558-571 | a primitive read fails exactly when the caller pair fails; otherwise `read` precedes it and the stack is kept |
| FieldMv.PrimitiveFieldWriteTransparent | src/main/java/com/github/kaeluka/spencer/instrumentation/InstrumentationVisitor.java:574-586 | a primitive write fails exactly when the caller pair fails or a `PUTFIELD` sees an empty stack; otherwise `modify` precedes it |
| FieldMv.ReferenceFieldReadTransparent | src/main/java/com/github/kaeluka/spencer/instrumentation/InstrumentationVisitor.java:558-568 | skipped while the stack starts with uninitialised `this`; otherwise fails exactly as the pairs do, and `loadFieldA` precedes the load |
| FieldMv.ReferenceFieldWriteTransparent | src/main/java/com/github/kaeluka/spencer/instrumentation/InstrumentationVisitor.java:574-583 | fails exactly when the caller pair, the new value's type or (outside constructors) an uninitialised holder fails; otherwise `storeFieldA` precedes the store |
| FieldMv.FieldMV.constructor | src/main/java/com/github/kaeluka/spencer/instrumentation/InstrumentationVisitor.java:368-372 | a field rewriter over the given visitor state |
| FieldMv.FieldMV.EmitLoadArrayPrimitive | src/main/java/com/github/kaeluka/spencer/instrumentation/InstrumentationVisitor.java:408-425 | emits what `LoadArrayPrimitiveEmission` says |
| FieldMv.FieldMV.EmitStoreArrayPrimitive | src/main/java/com/github/kaeluka/spencer/instrumentation/InstrumentationVisitor.java:427-464 | emits what `StoreArrayPrimitiveEmission` says |
| FieldMv.FieldMV.EmitStoreArrayA | src/main/java/com/github/kaeluka/spencer/instrumentation/InstrumentationVisitor.java:466-505 | emits what `StoreArrayAEmission` says |
| FieldMv.FieldMV.EmitLoadArrayA | src/main/java/com/github/kaeluka/spencer/instrumentation/InstrumentationVisitor.java:507-545 | emits what `LoadArrayAEmission` says |
| FieldMv.FieldMV.VisitInsn | src/main/java/com/github/kaeluka/spencer/instrumentation/InstrumentationVisitor.java:375-406 | emits what `VisitInsnEmission` says, the hook code then the instruction |
| FieldMv.FieldMV.EmitReadModifyCode | src/main/java/com/github/kaeluka/spencer/instrumentation/InstrumentationVisitor.java:607-655 | emits what `ReadModifyEmission` says |
| FieldMv.FieldMV.EmitLoadFieldACode | src/main/java/com/github/kaeluka/spencer/instrumentation/InstrumentationVisitor.java:657-741 | emits what `LoadFieldAEmission` says |
| FieldMv.FieldMV.EmitStoreFieldACode | src/main/java/com/github/kaeluka/spencer/instrumentation/InstrumentationVisitor.java:747-882 | emits what `StoreFieldAEmission` says |
| FieldMv.FieldMV.VisitFieldInsn | src/main/java/com/github/kaeluka/spencer/instrumentation/InstrumentationVisitor.java:549-595 | emits what `VisitFieldInsnEmission` says, the hook code then the instruction |
| VarMv.LoadVarNeutral | src/main/java/com/github/kaeluka/spencer/instrumentation/InstrumentationVisitor.java:1105-1133 | the `loadVar` code keeps the stack and calls `loadVar` with the local's pair, index, caller class and name, and the caller pair |
| VarMv.StoreVarMidRun | src/main/java/com/github/kaeluka/spencer/instrumentation/InstrumentationVisitor.java:1148-1159 | pushes NOT_IMPLEMENTED and null as the old value, then the index, class and method name |
| VarMv.StoreVarNeutral | src/main/java/com/github/kaeluka/spencer/instrumentation/InstrumentationVisitor.java:1142-1174 | the `storeVar` code keeps `.. stored` and calls `storeVar` with the new value, the missing old value, the index and the caller |
| VarMv.VisitVarInsnSkips | src/main/java/com/github/kaeluka/spencer/instrumentation/InstrumentationVisitor.java:1096-1182 | primitive loads and stores, `RET` and loads of `this` are forwarded alone |
| VarMv.LoadVarTransparent | src/main/java/com/github/kaeluka/spencer/instrumentation/InstrumentationVisitor.java:1105-1133 | an `ALOAD` of a non-`this` local fails exactly when the local is primitive or the receiver cannot be read; otherwise `loadVar` precedes the load and the stack is kept |
| VarMv.StoreVarTransparent | src/main/java/com/github/kaeluka/spencer/instrumentation/InstrumentationVisitor.java:1142-1174 | an `ASTORE` fails exactly when the known stack is empty or the receiver cannot be read; otherwise `storeVar` precedes the store and the stack is kept |
| VarMv.StoreVarPassesStored | src/main/java/com/github/kaeluka/spencer/instrumentation/InstrumentationVisitor.java:1145 | the stored reference is passed as NORMAL, or as THIS with null when it is uninitialised `this` |
| VarMv.VarMV.constructor | src/main/java/com/github/kaeluka/spencer/instrumentation/InstrumentationVisitor.java:1083-1086 | a variable rewriter over the given visitor state |
| VarMv.VarMV.EmitLoadVar | src/main/java/com/github/kaeluka/spencer/instrumentation/InstrumentationVisitor.java:1106-1132 | emits the `loadVar` report, stopping where a pair throws |
| VarMv.VarMV.EmitStoreVar | src/main/java/com/github/kaeluka/spencer/instrumentation/InstrumentationVisitor.java:1143-1173 | emits the `storeVar` report, stopping where a pair throws |
| VarMv.VarMV.VisitVarInsn | src/main/java/com/github/kaeluka/spencer/instrumentation/InstrumentationVisitor.java:1089-1183 | emits what `VisitVarInsnEmission` says, the report then the instruction |
| MethodMv.WideCountOffset | src/main/java/com/github/kaeluka/spencer/instrumentation/InstrumentationVisitor.java:959-971 | the loop's `slot + doubleSizeVars` is the local slot of parameter `slot` |
| MethodMv.ArgStores | src/main/java/com/github/kaeluka/spencer/instrumentation/InstrumentationVisitor.java:959-977 | one store per loop round |
| MethodMv.ArgStoresShape | src/main/java/com/github/kaeluka/spencer/instrumentation/InstrumentationVisitor.java:952-977 | store `j` puts parameter `j` at index `first + j`, inside the array and never at slot 0 of an instance method; a reference is read from its own local, a primitive becomes null |
| MethodMv.ArgStoreAt | src/main/java/com/github/kaeluka/spencer/instrumentation/InstrumentationVisitor.java:959-977 | the same for a single `j` |
| MethodMv.ArgRun | src/main/java/com/github/kaeluka/spencer/instrumentation/InstrumentationVisitor.java:961-976 | one round keeps the array on the stack and performs its store |
| MethodMv.ArgsRun | src/main/java/com/github/kaeluka/spencer/instrumentation/InstrumentationVisitor.java:959-977 | the rounds keep the array on the stack and perform all stores in order |
| MethodMv.ReftypeArgsRun | src/main/java/com/github/kaeluka/spencer/instrumentation/InstrumentationVisitor.java:942-979 | `pushReftypeArgs` pushes an array of `params + (static ? 0 : 1)` objects, fills it, and calls nothing |
| MethodMv.AfterInitRun | src/main/java/com/github/kaeluka/spencer/instrumentation/InstrumentationVisitor.java:900-909 | in a constructor, calls `afterInitMethod(this, className)` and keeps the stack; elsewhere does nothing |
| MethodMv.MethodEnterRun | src/main/java/com/github/kaeluka/spencer/instrumentation/InstrumentationVisitor.java:913-940 | keeps the stack, fills the argument array and calls `methodEnter(name, desc, class, kind, receiver, args)` |
| MethodMv.OnMethodEnterTransparent | src/main/java/com/github/kaeluka/spencer/instrumentation/InstrumentationVisitor.java:899-911 | method entry throws exactly when an instance method's locals are empty; otherwise it keeps the stack and makes `afterInitMethod` (constructors), the argument stores and `methodEnter`, in order |
| MethodMv.PrimitiveArrayClass | src/main/java/com/github/kaeluka/spencer/instrumentation/InstrumentationVisitor.java:989-1016 | a class for exactly the type codes 4..11, else `IllegalArgumentException` with the operand in its message |
| MethodMv.PrimitiveArrayClassAgrees | src/main/java/com/github/kaeluka/spencer/instrumentation/InstrumentationVisitor.java:989-1016 | the class is `[` plus the element descriptor the type code stands for in the JVM table, and both maps are inverse |
| MethodMv.FakeInitHeadRun | src/main/java/com/github/kaeluka/spencer/instrumentation/InstrumentationVisitor.java:1017-1026 | calls `afterInitMethod(array, "[Ljava/lang/Object;")` and pushes `<init>` and `(I)V` |
| MethodMv.FakeInitTailRun | src/main/java/com/github/kaeluka/spencer/instrumentation/InstrumentationVisitor.java:1027-1040 | calls `methodEnter("<init>", "(I)V", class, THIS, null, null)` |
| MethodMv.FakeInitRun | src/main/java/com/github/kaeluka/spencer/instrumentation/InstrumentationVisitor.java:1017-1040 | the fake constructor call keeps the new array and makes both calls |
| MethodMv.VisitIntInsnTransparent | src/main/java/com/github/kaeluka/spencer/instrumentation/InstrumentationVisitor.java:984-1042 | other int instructions pass alone; `NEWARRAY` fails exactly for an unknown code, else allocates as before and reports the array constructed |
| MethodMv.ArrayClassAsWrittenBreaks | src/main/java/com/github/kaeluka/spencer/instrumentation/InstrumentationVisitor.java:1059-1060 | as written, `ANEWARRAY [I` is reported as class `[[I;`, from which the element type cannot be recovered |
| MethodMv.ArrayClass | src/main/java/com/github/kaeluka/spencer/instrumentation/InstrumentationVisitor.java:1059-1063 | the corrected class fails exactly on ""; otherwise it is `[` followed by a descriptor whose `ANEWARRAY` operand is the type |
| MethodMv.ArrayClassAgreesOnClasses | src/main/java/com/github/kaeluka/spencer/instrumentation/InstrumentationVisitor.java:1061-1063 | for element classes the correction changes nothing |
| MethodMv.VisitTypeInsnAsWrittenDiffers | src/main/java/com/github/kaeluka/spencer/instrumentation/InstrumentationVisitor.java:1045-1078 | for `ANEWARRAY [I` the code as written reports `[[I;`, the corrected code `[[I` |
| MethodMv.VisitTypeInsnTransparent | src/main/java/com/github/kaeluka/spencer/instrumentation/InstrumentationVisitor.java:1045-1078 | other type instructions pass alone; `ANEWARRAY` fails exactly on an empty type, else allocates as before and reports the array constructed |
| MethodMv.MethodMV.constructor | src/main/java/com/github/kaeluka/spencer/instrumentation/InstrumentationVisitor.java:893-896 | a method rewriter over the given visitor state |
| MethodMv.MethodMV.PushReftypeArgs | src/main/java/com/github/kaeluka/spencer/instrumentation/InstrumentationVisitor.java:942-979 | the loop, with `doubleSizeVars` counting the wide parameters so far, emits `ReftypeArgsCode` |
| MethodMv.MethodMV.EmitMethodEnter | src/main/java/com/github/kaeluka/spencer/instrumentation/InstrumentationVisitor.java:913-940 | emits what `MethodEnterEmission` says |
| MethodMv.MethodMV.OnMethodEnter | src/main/java/com/github/kaeluka/spencer/instrumentation/InstrumentationVisitor.java:899-911 | emits what `OnMethodEnterEmission` says |
| MethodMv.MethodMV.VisitIntInsn | src/main/java/com/github/kaeluka/spencer/instrumentation/InstrumentationVisitor.java:984-1042 | emits what `VisitIntInsnEmission` says |
| MethodMv.MethodMV.VisitTypeInsn | src/main/java/com/github/kaeluka/spencer/instrumentation/InstrumentationVisitor.java:1045-1078 | emits what the corrected `VisitTypeInsnEmission` says |
| ExitHandler.OnExitNeutral | src/main/java/com/github/kaeluka/spencer/instrumentation/InstrumentationVisitor.java:66-73 | the exit callback keeps the stack, whatever the reason, and makes one `methodExit(name, class)` call |
| ExitHandler.AfterMethodExit | src/main/java/org/spencer/instrumentation/ExitHandler.java:84-93 | the line is unchanged; the reported set grows by the current line exactly when an exit fires and is otherwise unchanged |
| ExitHandler.MethodExitOncePerLine | src/main/java/org/spencer/instrumentation/ExitHandler.java:84-93 | `ATHROW` emits and changes nothing; after a report no later exit on that line emits; code is emitted exactly when the exit fires |
| ExitHandler.ExitsOncePerLine | src/main/java/org/spencer/instrumentation/ExitHandler.java:63-93 | over any run of instructions and line numbers, normal exits are reported on pairwise distinct lines not reported before, and the reported set grows by exactly those lines |
| ExitHandler.ExitHandler.constructor | src/main/java/org/spencer/instrumentation/ExitHandler.java:23-51 | four distinct labels, line 0, nothing reported, nothing emitted |
| ExitHandler.ExitHandler.VisitCode | src/main/java/org/spencer/instrumentation/ExitHandler.java:54-57 | forwards the event, then marks the start of the covered range |
| ExitHandler.ExitHandler.OnMethodExit | src/main/java/org/spencer/instrumentation/ExitHandler.java:84-93 | moves to `AfterMethodExit` and emits `MethodExitCode` |
| ExitHandler.ExitHandler.VisitInsn | src/main/java/org/spencer/instrumentation/ExitHandler.java:63-75 | a return is preceded by the exit report; every instruction is forwarded |
| ExitHandler.ExitHandler.VisitLineNumber | src/main/java/org/spencer/instrumentation/ExitHandler.java:78-81 | remembers the line and forwards the event |
| ExitHandler.ExitHandler.VisitMaxs | src/main/java/org/spencer/instrumentation/ExitHandler.java:96-104 | emits end label, jump over the handler, handler label, exit report, `ATHROW`, end label, then `visitMaxs`; the reported lines are unchanged |

## Left out

- ASM itself is not part of this model: the class reader and writer, `AdviceAdapter`, `AnalyzerAdapter`, `JSRInlinerAdapter`, `TryCatchBlockSorter`, `CheckClassAdapter` and `TraceClassVisitor`. The frame an analyzer computes before an instruction is a parameter (`Frame`), and the rewriting outcome handed to `transform` is a parameter too.
- When `AdviceAdapter` calls `onMethodEnter` and `onMethodExit` is not modelled; the entry code and the exit code are modelled as what those callbacks emit.
- ExitHandler.ExitHandler.VisitMaxs: the handler block is emitted between labels, but the source registers no exception-table entry for it (`visitTryCatchBlock` is never called), so the model claims nothing about intercepting exceptions.
- `Type.getArgumentTypes` is not modelled: a method's parameter descriptors are given in `MethodInfo.params`. The `params == null` branch of `pushReftypeArgs` is unreachable (`Arrays.asList` never returns null) and is left out, as is the non-`Type` element branch.
- MethodMv.MethodEnterRun: the method's signature is taken to be its descriptor, which is what the constructor receives; the `"<none available>"` branch for a null signature is left out.
- The debugging emitters `comment`, `emitPrintln`, `emitPrintTopOfStack`, `runtimeWarning` and `instrumentationWarning` are left out. The model is the code emitted with comments disabled, where `comment` emits nothing, and for classes whose source file is not `StationaryFields.java`, which `pushThisKindAndObj` traces with `println` code. `emitStoreFieldACode` prints to the agent's standard output for a field named `barbar`, and `emitLoadFieldACode` prints `was uninit` to it each time it rewrites a reference `GETFIELD` whose holder is uninitialised `this` (InstrumentationVisitor.java:711); both outputs are left out. `getLastVisitedLocation` only concatenates the source file name and the last visited line; its result is unused in `emitLoadFieldACode` and otherwise feeds only the `StationaryFields.java` tracing above, so it is left out. `getClassName(byte[])`, `isInXBootclassPath` and the trace file opened by `trace` are I/O and left out.
- InstrumentationMv.KindAndObjectInVar: before throwing for a primitive local, the source emits a `runtimeWarning`, which is code that prints a warning. The model emits nothing on that path. The rewrite is abandoned there, and `transform` returns the original bytes.
- `pushFakeKindAndVal` and `pushThreadObj` are never called and are left out.
- What `NativeInterface`'s other hooks print is left out; only the arguments the rewritten code passes them are modelled.
- Instrument.Agent.LogError: the error list is a shared static `ArrayList`; concurrent calls to `transform` are not modelled.
- Instrument.Agent.GetErrors: returns a copy of the log, while the source returns the live static `ArrayList`, so the aliasing through which a caller could change the log is not modelled.
- Instrument.TransformPolicy: `transform` parses the class with `ClassReader` before the enabled check and outside its `try` (Instrument.java:64-65), so bytes that do not parse throw even when the agent is disabled or the class is blacklisted. Parsing is part of ASM and not modelled; the disabled and blacklisted cases assume bytes that parse.
- The exit callback's reason string is pushed and popped again, so its text does not reach the sink; `NormalExitReason` records it but no property depends on it.
- Java `int` overflow is not modelled: slot indices, array sizes and line numbers are unbounded integers.
- `RecursiveJarClassLoader`, `TestTransformer` and `ClassDumpTransformer` are not part of this model.

## Findings

| source | as written | input that shows it | evidently intended | confidence | as-written member | corrected member |
|---|---|---|---|---|---|---|
| src/main/java/com/github/kaeluka/spencer/instrumentation/Instrument.java:60 | the access word OR-ed with `ACC_INTERFACE` is compared with 0, which is true for every class | a public class, access 0x0021 | `(access & ACC_INTERFACE) != 0` | high, not executed | Instrument.IsInterfaceAsWrittenAlwaysTrue | Instrument.IsInterfaceSeparates |
| src/main/java/com/github/kaeluka/spencer/instrumentation/InstrumentationVisitor.java:334-339 | `case 1` of `pushKindAndObjectAtDepth` has no `break`: it emits `DUP2; POP` and falls into `default`, which throws | `pushKindAndObjectAtDepth(1)` with an ordinary value below the top | push NORMAL and a copy of the value below the top (`DUP2; POP; LDC 0; SWAP`) | high, not executed | InstrumentationMv.AtDepthOneFallsThrough | InstrumentationMv.KindAndObjectAtDepth |
| src/main/java/com/github/kaeluka/spencer/instrumentation/InstrumentationVisitor.java:1059-1060 | for `ANEWARRAY` of an array type the class reported is `"[" + type + ";"` | `ANEWARRAY [I` reports `[[I;` (and `[Ljava/lang/String;` gives `[[Ljava/lang/String;;`) | `"[" + type`, the class `[[I` | high, not executed | MethodMv.ArrayClassAsWrittenBreaks | MethodMv.ArrayClass |
