/** The trace sink the rewritten code calls (`NativeInterface`): the
    value-kind constants and their names, the rendering of a value together
    with its kind, and the two array hooks that report an array element as a
    field of the array.  What the other hooks print is not part of this
    model. */
module NativeInterface {
  import opened Common
  import Instrument

  const SPECIAL_VAL_NORMAL := 0
  const SPECIAL_VAL_THIS := 1
  const SPECIAL_VAL_STATIC := 2
  const SPECIAL_VAL_NOT_IMPLEMENTED := 3
  const SPECIAL_VAL_JVM := 4
  const SPECIAL_VAL_MAX := 5

  /** The sink and the rewriter agree on every kind, and the kinds are
      pairwise distinct. */
  lemma KindsAgree()
    ensures SPECIAL_VAL_NORMAL == Instrument.SPECIAL_VAL_NORMAL
    ensures SPECIAL_VAL_THIS == Instrument.SPECIAL_VAL_THIS
    ensures SPECIAL_VAL_STATIC == Instrument.SPECIAL_VAL_STATIC
    ensures SPECIAL_VAL_NOT_IMPLEMENTED == Instrument.SPECIAL_VAL_NOT_IMPLEMENTED
    ensures SPECIAL_VAL_JVM == Instrument.SPECIAL_VAL_JVM
    ensures SPECIAL_VAL_MAX == Instrument.SPECIAL_VAL_MAX
    ensures |{SPECIAL_VAL_NORMAL, SPECIAL_VAL_THIS, SPECIAL_VAL_STATIC,
              SPECIAL_VAL_NOT_IMPLEMENTED, SPECIAL_VAL_JVM, SPECIAL_VAL_MAX}| == 6
  {
  }

  /** `kindToNames`, filled once by the static initialiser. */
  const KindToNames: map<int, string> := map[
    SPECIAL_VAL_NORMAL := "SPECIAL_VAL_NORMAL",
    SPECIAL_VAL_THIS := "THIS",
    SPECIAL_VAL_STATIC := "STATIC",
    SPECIAL_VAL_NOT_IMPLEMENTED := "NOT_IMPLEMENTED",
    SPECIAL_VAL_JVM := "JVM",
    SPECIAL_VAL_MAX := "SPECIAL_VAL_MAX"
  ]

  /** `valKindToString`: the kind's name, `None` (Java's `null`) for an int
      that is no kind. */
  function ValKindToString(valKind: int): (r: Option<string>)
    ensures r.Some? <==> SPECIAL_VAL_NORMAL <= valKind <= SPECIAL_VAL_MAX
  {
    if valKind in KindToNames then Some(KindToNames[valKind]) else None
  }

  /** Distinct kinds have distinct names. */
  lemma KindNamesDistinct(k1: int, k2: int)
    requires ValKindToString(k1).Some? && ValKindToString(k1) == ValKindToString(k2)
    ensures k1 == k2
  {
  }

  /** The names as the source spells them. */
  lemma KindNames()
    ensures ValKindToString(SPECIAL_VAL_NORMAL) == Some("SPECIAL_VAL_NORMAL")
    ensures ValKindToString(SPECIAL_VAL_THIS) == Some("THIS")
    ensures ValKindToString(SPECIAL_VAL_STATIC) == Some("STATIC")
    ensures ValKindToString(SPECIAL_VAL_NOT_IMPLEMENTED) == Some("NOT_IMPLEMENTED")
    ensures ValKindToString(SPECIAL_VAL_JVM) == Some("JVM")
    ensures ValKindToString(SPECIAL_VAL_MAX) == Some("SPECIAL_VAL_MAX")
  {
  }

  /** A Java reference as the sink sees it: `null`, or an object whose
      `toString()` is `text` (the method itself is not part of this model). */
  datatype JObject = JNull | JRef(id: nat, text: string)

  /** Java's string conversion of a possibly-null `String`. */
  function OrNull(s: Option<string>): string {
    match s
    case Some(t) => t
    case None => "null"
  }

  /** `valAndValKindToString(val, type, valKind)`. */
  function ValAndValKindToString(val: JObject, typ: string, valKind: int): string {
    if valKind == SPECIAL_VAL_NORMAL then
      match val
      case JRef(_, text) => text
      case JNull => "NULL:" + typ + "\t"
    else if valKind == SPECIAL_VAL_THIS || valKind == SPECIAL_VAL_STATIC then
      OrNull(ValKindToString(valKind)) + ":" + typ
    else
      OrNull(ValKindToString(valKind)) + "\t"
  }

  /** The rendering, case by case: a normal value is its `toString()` or
      `NULL:type` and a tab; THIS and STATIC ignore the value and print the
      kind's name and the type; any other kind prints its name (or "null")
      and a tab. */
  lemma ValAndValKindToStringCases(val: JObject, typ: string, valKind: int)
    ensures valKind == SPECIAL_VAL_NORMAL && val.JRef? ==>
              ValAndValKindToString(val, typ, valKind) == val.text
    ensures valKind == SPECIAL_VAL_NORMAL && val.JNull? ==>
              ValAndValKindToString(val, typ, valKind) == "NULL:" + typ + "\t"
    ensures valKind == SPECIAL_VAL_THIS ==>
              ValAndValKindToString(val, typ, valKind) == "THIS:" + typ
    ensures valKind == SPECIAL_VAL_STATIC ==>
              ValAndValKindToString(val, typ, valKind) == "STATIC:" + typ
    ensures valKind > SPECIAL_VAL_STATIC || valKind < SPECIAL_VAL_NORMAL ==>
              ValAndValKindToString(val, typ, valKind) == OrNull(ValKindToString(valKind)) + "\t"
    ensures valKind > SPECIAL_VAL_MAX || valKind < SPECIAL_VAL_NORMAL ==>
              ValAndValKindToString(val, typ, valKind) == "null\t"
  {
  }

  // ----- array hooks -----------------------------------------------------

  /** The field events the array hooks delegate to. */
  datatype FieldEvent =
    | LoadFieldA(value: JObject, holderValKind: int, holder: JObject, holderClass: string,
                 fieldName: string, typ: string, callerClass: string, callerMethod: string,
                 callerValKind: int, caller: JObject)
    | StoreFieldA(holderValKind: int, holder: JObject, newVal: JObject, oldVal: JObject,
                  holderClass: string, fieldName: string, typ: string, callerClass: string,
                  callerMethod: string, callerValKind: int, caller: JObject)

  /** The name under which element `idx` is reported: `"_" + idx`. */
  function ElementFieldName(idx: int): string {
    "_" + IntToString(idx)
  }

  /** Different elements are reported as different fields. */
  lemma ElementFieldNameInjective(i: int, j: int)
    requires ElementFieldName(i) == ElementFieldName(j)
    ensures i == j
  {
    assert IntToString(i) == ElementFieldName(i)[1..];
    assert IntToString(j) == ElementFieldName(j)[1..];
    IntToStringInjective(i, j);
  }

  /** `loadArrayA`: reports reading `arr[idx]` as loading field `_idx` of the
      array, whose element type is `calleeClass` without its first character.
      `substring(1)` of an empty class name throws. */
  function LoadArrayA(arr: JObject, idx: int, val: JObject, calleeClass: string, callerMethod: string,
                      callerClass: string, callerValKind: int, caller: JObject): Result<FieldEvent>
  {
    if |calleeClass| < 1 then Err(IndexOutOfBounds)
    else Ok(LoadFieldA(val, SPECIAL_VAL_NORMAL, arr, calleeClass, ElementFieldName(idx), calleeClass[1..],
                       callerClass, callerMethod, callerValKind, caller))
  }

  /** `storeArrayA`: reports writing `arr[idx]` as storing field `_idx` of
      the array. */
  function StoreArrayA(newVal: JObject, arr: JObject, idx: int, oldVal: JObject, holderClass: string,
                       callerMethod: string, callerClass: string, callerValKind: int,
                       caller: JObject): Result<FieldEvent>
  {
    if |holderClass| < 1 then Err(IndexOutOfBounds)
    else Ok(StoreFieldA(SPECIAL_VAL_NORMAL, arr, newVal, oldVal, holderClass, ElementFieldName(idx),
                        holderClass[1..], callerClass, callerMethod, callerValKind, caller))
  }

  /** For any non-empty class: the load is reported as a NORMAL holder's
      field, the element type is the class without its first character (for
      an array class, as the rewriter always passes, the class with its '['
      removed), and every other argument is handed on unchanged. */
  lemma LoadArrayADelegates(arr: JObject, idx: int, val: JObject, calleeClass: string, callerMethod: string,
                            callerClass: string, callerValKind: int, caller: JObject)
    requires |calleeClass| >= 1
    ensures var r := LoadArrayA(arr, idx, val, calleeClass, callerMethod, callerClass, callerValKind, caller);
            r.Ok? && r.value.LoadFieldA?
            && r.value.holderValKind == SPECIAL_VAL_NORMAL && r.value.holder == arr
            && r.value.value == val && r.value.holderClass == calleeClass
            && r.value.typ == calleeClass[1..]
            && (StartsWith(calleeClass, "[") ==> "[" + r.value.typ == calleeClass)
            && r.value.fieldName == "_" + IntToString(idx)
            && r.value.callerClass == callerClass && r.value.callerMethod == callerMethod
            && r.value.callerValKind == callerValKind && r.value.caller == caller
  {
    assert calleeClass == calleeClass[..1] + calleeClass[1..];
  }

  /** The store counterpart of `LoadArrayADelegates`. */
  lemma StoreArrayADelegates(newVal: JObject, arr: JObject, idx: int, oldVal: JObject, holderClass: string,
                             callerMethod: string, callerClass: string, callerValKind: int, caller: JObject)
    requires |holderClass| >= 1
    ensures var r := StoreArrayA(newVal, arr, idx, oldVal, holderClass, callerMethod, callerClass,
                                 callerValKind, caller);
            r.Ok? && r.value.StoreFieldA?
            && r.value.holderValKind == SPECIAL_VAL_NORMAL && r.value.holder == arr
            && r.value.newVal == newVal && r.value.oldVal == oldVal
            && r.value.holderClass == holderClass
            && r.value.typ == holderClass[1..]
            && (StartsWith(holderClass, "[") ==> "[" + r.value.typ == holderClass)
            && r.value.fieldName == "_" + IntToString(idx)
            && r.value.callerClass == callerClass && r.value.callerMethod == callerMethod
            && r.value.callerValKind == callerValKind && r.value.caller == caller
  {
    assert holderClass == holderClass[..1] + holderClass[1..];
  }

  /** An empty class name makes both hooks throw. */
  lemma ArrayHooksRejectEmptyClass(arr: JObject, idx: int, val: JObject, callerMethod: string,
                                   callerClass: string, callerValKind: int, caller: JObject)
    ensures LoadArrayA(arr, idx, val, "", callerMethod, callerClass, callerValKind, caller).Err?
    ensures StoreArrayA(val, arr, idx, JNull, "", callerMethod, callerClass, callerValKind, caller).Err?
  {
  }
}
