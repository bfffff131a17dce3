/**
  Error items, the default error handler and the error a failed validation
  throws.
 */
module ErrorStuff {
  import opened Wrappers
  import opened JsValues

  // The message texts are written as short concatenated pieces, which the
  // verifier evaluates far more cheaply than one long literal.
  const InitMessage := "\"init:\" option " + "must be \"true\" " + "if schema is " + "not optional."
  const DefaultValMessage := "Default value " + "did not pass " + "validation."
  const ValidatorMessage := "Schema-property " + "must be a " + "validator-function, " + "nested-schema, "
    + "validator-object, " + "or one of the " + "following " + "constructors " + "String, Number, "
    + "Boolean, or " + "Date."
  const PropValidationMessage := "Validator " + "function failed."
  const UndefButNotOptMessage := "Argument was " + "undefined but " + "not optional."
  const NullButNotNullableMessage := "Argument was " + "null but not " + "nullable"
  const NotAnObjMessage := "Argument must " + "be an object."
  const StrictModeMessage := "Extra " + "properties not " + "allowed in " + "strict mode."
  const EnumMessage := "Enum option was " + "used but value " + "was not a valid " + "enum."

  /** The prefix of every thrown validation error's message. */
  const ErrorPrefix := "One or more " + "schema " + "properties " + "failed " + "validation: "

  /** The names of the error messages. */
  datatype ErrKind =
    | Init | DefaultVal | Validator | PropValidation | UndefButNotOpt
    | NullButNotNullable | NotAnObj | StrictMode | Enum

  function Message(k: ErrKind): string {
    match k
    case Init => InitMessage
    case DefaultVal => DefaultValMessage
    case Validator => ValidatorMessage
    case PropValidation => PropValidationMessage
    case UndefButNotOpt => UndefButNotOptMessage
    case NullButNotNullable => NullButNotNullableMessage
    case NotAnObj => NotAnObjMessage
    case StrictMode => StrictModeMessage
    case Enum => EnumMessage
  }

  /** An error item; a field is `None` when the item does not carry that property. */
  datatype ErrorItem = ErrorItem(
    property: Option<string>,
    value: Option<Value>,
    message: Option<string>,
    location: Option<string>,
    schemaId: Option<string>)

  /** One element of an error list: a string or an error item. */
  datatype ErrEntry = EntryStr(s: string) | EntryItem(item: ErrorItem)

  /** What an error handler receives: a string, one item, or a list of entries. */
  datatype ErrArg = ArgStr(s: string) | ArgItem(item: ErrorItem) | ArgList(entries: seq<ErrEntry>)

  /** An optional string argument that is truthy: given and not empty. */
  predicate Given(s: Option<string>) {
    s.Some? && s.value != ""
  }

  /** A string argument as `setupErrItem` keeps it: only when truthy. */
  function KeepGiven(s: Option<string>): Option<string> {
    if Given(s) then s else None
  }

  /**
    The item `setupErrItem` builds.  Each string argument is kept only when
    truthy; `value` is `Some` exactly when the call passed a fifth argument,
    whatever that argument was.
   */
  function ErrItem(message: Option<string>, location: Option<string>, schemaId: Option<string>,
                   property: Option<string>, value: Option<Value>): (e: ErrorItem)
    ensures e.property.Some? <==> Given(property)
    ensures e.message.Some? <==> Given(message)
    ensures e.location.Some? <==> Given(location)
    ensures e.schemaId.Some? <==> Given(schemaId)
    ensures e.property.Some? ==> e.property == property
    ensures e.message.Some? ==> e.message == message
    ensures e.location.Some? ==> e.location == location
    ensures e.schemaId.Some? ==> e.schemaId == schemaId
    ensures e.value == value
  {
    ErrorItem(KeepGiven(property), value, KeepGiven(message), KeepGiven(location), KeepGiven(schemaId))
  }

  /** `setupErrItem`: starts from an empty item and assigns each field that is given. */
  method SetupErrItem(message: Option<string>, location: Option<string>, schemaId: Option<string>,
                      property: Option<string>, value: Option<Value>) returns (error: ErrorItem)
    ensures error == ErrItem(message, location, schemaId, property, value)
  {
    error := ErrorItem(None, None, None, None, None);
    if property.Some? && property.value != "" {
      error := error.(property := property);
    }
    if value.Some? {
      error := error.(value := value);
    }
    if message.Some? && message.value != "" {
      error := error.(message := message);
    }
    if location.Some? && location.value != "" {
      error := error.(location := location);
    }
    if schemaId.Some? && schemaId.value != "" {
      error := error.(schemaId := schemaId);
    }
  }

  predicate TruthyArg(a: ErrArg) {
    !(a.ArgStr? && a.s == "")
  }

  /**
    `defaultOnError`: the argument of the error it throws, or `None` when it
    returns.  It throws exactly for a truthy argument that is not an empty list.
   */
  function DefaultOnError(errors: Option<ErrArg>): (thrown: Option<ErrArg>)
    ensures thrown.Some? <==> errors.Some? && TruthyArg(errors.value) && errors.value != ArgList([])
    ensures thrown.Some? ==> thrown == errors
  {
    match errors
    case None => None
    case Some(e) =>
      if !TruthyArg(e) then None
      else if e.ArgList? && |e.entries| == 0 then None
      else errors
  }

  /** A list entry as a handler argument of its own. */
  function EntryArg(e: ErrEntry): ErrArg {
    match e
    case EntryStr(s) => ArgStr(s)
    case EntryItem(i) => ArgItem(i)
  }

  /**
    `SetupErrorString`: strings are kept, a one-element list is serialised by
    its sole element, anything else as a whole.  `stringify` is `JSON.stringify`.
   */
  function SetupErrorString(errArg: ErrArg, stringify: ErrArg -> string): (s: string)
    ensures errArg.ArgStr? ==> s == errArg.s
    ensures errArg.ArgList? && |errArg.entries| == 1 ==> s == stringify(EntryArg(errArg.entries[0]))
    ensures errArg.ArgItem? || (errArg.ArgList? && |errArg.entries| != 1) ==> s == stringify(errArg)
  {
    if !errArg.ArgStr? then
      if errArg.ArgList? && |errArg.entries| == 1 then stringify(EntryArg(errArg.entries[0]))
      else stringify(errArg)
    else errArg.s
  }

  /**
    `CopyErrArg`: a shallow copy of lists and items, strings as they are.  As
    values, the copy equals the original; only its identity is new.
   */
  function CopyErrArg(errArg: ErrArg): (r: ErrArg)
    ensures r == errArg
    ensures r.ArgList? ==> |r.entries| == |errArg.entries|
  {
    match errArg
    case ArgList(es) => ArgList(es[..])
    case ArgItem(i) => ArgItem(ErrorItem(i.property, i.value, i.message, i.location, i.schemaId))
    case ArgStr(s) => ArgStr(s)
  }

  /** The error `defaultOnError` throws. */
  class JetSchemaError {
    /** The `message` of the underlying `Error`. */
    const message: string
    var errArg: ErrArg

    constructor (errArg: ErrArg, stringify: ErrArg -> string)
      ensures message == ErrorPrefix + SetupErrorString(errArg, stringify)
      ensures this.errArg == errArg
    {
      message := ErrorPrefix + SetupErrorString(errArg, stringify);
      this.errArg := CopyErrArg(errArg);
    }

    /** `getErrors`: the copy of the argument kept at construction. */
    function GetErrors(): ErrArg
      reads this
    {
      errArg
    }
  }
}
