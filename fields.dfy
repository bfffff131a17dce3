/**
  The validator-holder entry each schema key resolves to, and how the
  `initSchemaFn` engine resolves a schema property into one.

  The closures the source stores in a holder (validator, default thunk,
  formatter, transform) are written as first-order descriptors and run
  against a `Host`.
 */
module Fields {
  import opened Wrappers
  import opened JsValues
  import opened ErrorStuff
  import opened Env
  import Util

  /** A validator function: the built-in ones, or a call of a function value. */
  datatype Vf =
    | VfTruthy              // the placeholder `arg => !!arg`
    | VfDate                // `isDate`
    | VfString | VfNumber | VfBoolean
    | VfOneOf(vals: seq<Value>)  // `vals.some(val => val === arg)`
    | VfCall(f: Value)

  /** A default thunk. */
  datatype Dflt =
    | DConst(v: Value)      // `() => v`
    | DCall(f: Value)       // a function value called without arguments
    | DNow                  // `() => new Date()`
    | DClone(v: Value)      // `() => cloneFn(v)`

  /** A `formatError`: the identity placeholder or a caller-supplied function. */
  datatype Fmt = FmtSame | FmtCall(f: Value)

  /** A transform: `arg => new Date(arg)` or a caller-supplied function. */
  datatype Tr = TrDate | TrCall(f: Value)

  /** One validator-holder object. */
  datatype Entry = Entry(vf: Vf, dflt: Dflt, fmt: Fmt, transform: Option<Tr>)

  /** The holder object every key starts from. */
  const Placeholder := Entry(VfTruthy, DConst(Undef), FmtSame, None)

  /** Which engine a schema function belongs to. */
  datatype Version = InitSchemaFn | JetSchema

  /** A schema function's configuration: its engine, host, and `cloneFn`. */
  datatype Ctx = Ctx(ver: Version, host: Host, clone: Value -> Value)

  predicate RunVf(host: Host, vf: Vf, v: Value) {
    match vf
    case VfTruthy => Truthy(v)
    case VfDate => IsDate(host, v)
    case VfString => host.isString(v)
    case VfNumber => host.isNumber(v)
    case VfBoolean => host.isBoolean(v)
    case VfOneOf(vals) => v in vals
    case VfCall(f) => Truthy(host.apply(f, v))
  }

  function RunDflt(ctx: Ctx, d: Dflt): Value {
    match d
    case DConst(v) => v
    case DCall(f) => ctx.host.apply(f, Undef)
    case DNow => ctx.host.now
    case DClone(v) => ctx.clone(v)
  }

  function RunFmt(host: Host, fmt: Fmt, e: ErrorItem): ErrEntry {
    match fmt
    case FmtSame => EntryItem(e)
    case FmtCall(f) => host.format(f, e)
  }

  function RunTr(host: Host, t: Tr, v: Value): Value {
    match t
    case TrDate => host.newDate(v)
    case TrCall(f) => host.apply(f, v)
  }

  /** The value a key is validated with: transformed when the entry has a transform. */
  function ApplyTr(host: Host, e: Entry, v: Value): (r: Value)
    ensures e.transform.None? ==> r == v
  {
    if e.transform.Some? then RunTr(host, e.transform.value, v) else v
  }

  /** A key's value passes its entry: the validator accepts the transformed value. */
  predicate FieldOk(host: Host, e: Entry, v: Value) {
    RunVf(host, e.vf, ApplyTr(host, e, v))
  }

  /**
    An error item of the given kind: `setupErrItem` with the kind's message
    for `initSchemaFn`, `getErrObj` for `jetSchema`.
   */
  function MakeErr(ctx: Ctx, kind: ErrKind, location: string, schemaId: Option<string>,
                   property: Option<string>, value: Option<Value>): ErrorItem
  {
    match ctx.ver
    case InitSchemaFn => ErrItem(Some(Message(kind)), Some(location), schemaId, property, value)
    case JetSchema => ctx.host.getErrObj(kind, location, schemaId, property, value)
  }

  /** `_isSchemaObj`. */
  predicate IsSchemaObj(v: Value) {
    Util.IsObj(v) && Has(v, "_schemaOptions")
  }

  /** `_isValidatorObj`. */
  predicate IsValidatorObj(v: Value) {
    Util.IsObj(v) && Has(v, "vf") && Util.IsFn(Get(v, "vf"))
  }

  /** The outcome of resolving one schema property. */
  datatype Resolved = Resolved(
    entry: Entry,
    /** False when no branch recognised the property (an `Init` error). */
    recognised: bool,
    /** The `childSchemaNewFns` entry of a nested schema. */
    childNew: Option<Dflt>)

  /** The default entry of a nested schema: its `init` option decides. */
  function NestedEntry(spec: Value): (r: Resolved)
    ensures r.recognised && r.entry.vf == VfCall(Get(spec, "test")) && r.entry.transform.None?
    ensures r.childNew == Some(DCall(Get(spec, "new")))
    ensures Get(Get(spec, "_schemaOptions"), "init") == Bool(true) ==> r.entry.dflt == DCall(Get(spec, "new"))
    ensures Get(Get(spec, "_schemaOptions"), "init") == Null ==> r.entry.dflt == DConst(Null)
    ensures Get(Get(spec, "_schemaOptions"), "init") !in {Bool(true), Null} ==> r.entry.dflt == DConst(Undef)
  {
    var init := Get(Get(spec, "_schemaOptions"), "init");
    var dflt := if init == Bool(true) then DCall(Get(spec, "new"))
                else if init == Null then DConst(Null)
                else DConst(Undef);
    Resolved(Placeholder.(vf := VfCall(Get(spec, "test")), dflt := dflt), true, Some(DCall(Get(spec, "new"))))
  }

  /** The first branch of `initSchemaFn`'s resolver that a schema property takes. */
  datatype Branch =
    | DateBranch | StringBranch | NumberBranch | BooleanBranch
    | EnumBranch | ValidatorObjBranch | FunctionBranch | NestedBranch | NoBranch

  function Classify(host: Host, spec: Value): (b: Branch)
    ensures spec == Ctor(DateCtor) <==> b == DateBranch
    ensures spec == Ctor(StringCtor) <==> b == StringBranch
    ensures spec == Ctor(NumberCtor) <==> b == NumberBranch
    ensures spec == Ctor(BooleanCtor) <==> b == BooleanBranch
    ensures b == EnumBranch <==> !spec.Ctor? && host.isEnum(spec)
    ensures b == ValidatorObjBranch <==> !host.isEnum(spec) && IsValidatorObj(spec)
    // after the constructors, only caller-supplied functions are left of `typeof` "function"
    ensures b == FunctionBranch <==> spec.Fn? && !host.isEnum(spec)
    ensures b == NestedBranch <==> !host.isEnum(spec) && !IsValidatorObj(spec) && IsSchemaObj(spec)
    ensures b == NoBranch <==>
      !spec.Ctor? && !spec.Fn? && !host.isEnum(spec) && !IsValidatorObj(spec) && !IsSchemaObj(spec)
  {
    // `schemaArgProp === Date`, `=== String`, `=== Number`, `=== Boolean`
    if spec.Ctor? then
      match spec.ctor
      case DateCtor => DateBranch
      case StringCtor => StringBranch
      case NumberCtor => NumberBranch
      case BooleanCtor => BooleanBranch
    else if host.isEnum(spec) then EnumBranch
    else if IsValidatorObj(spec) then ValidatorObjBranch
    else if Util.IsFn(spec) then FunctionBranch
    else if IsSchemaObj(spec) then NestedBranch
    else NoBranch
  }

  /** The default of a local validator object in `initSchemaFn`. */
  function LocalDefault(ctx: Ctx, spec: Value): Dflt {
    if !Has(spec, "default") then DConst(Undef)
    else if Util.IsFn(Get(spec, "default")) then DCall(Get(spec, "default"))
    else DConst(ctx.clone(Get(spec, "default")))
  }

  /**
    How `initSchemaFn`'s `_setupAllVldtrsHolder` resolves one schema property;
    a failure is what `getEnumVals` throws.
   */
  function ResolveInit(ctx: Ctx, spec: Value): (r: Result<Resolved>)
    ensures r.Failure? ==> Classify(ctx.host, spec) == EnumBranch && Util.EnumVals(spec).Failure?
    ensures r.Success? ==> (r.value.recognised <==> Classify(ctx.host, spec) != NoBranch)
    ensures r.Success? ==> (r.value.childNew.Some? <==> Classify(ctx.host, spec) == NestedBranch)
  {
    match Classify(ctx.host, spec)
    case DateBranch => Success(Resolved(Entry(VfDate, DNow, FmtSame, Some(TrDate)), true, None))
    case StringBranch => Success(Resolved(Placeholder.(vf := VfString, dflt := DConst(Str(""))), true, None))
    case NumberBranch => Success(Resolved(Placeholder.(vf := VfNumber, dflt := DConst(Num(0))), true, None))
    case BooleanBranch => Success(Resolved(Placeholder.(vf := VfBoolean, dflt := DConst(Bool(false))), true, None))
    case EnumBranch =>
      (match Util.EnumVals(spec)
       case Failure(e) => Failure(e)
       case Success(vals) =>
         var first := if |vals| > 0 then vals[0] else Undef;
         Success(Resolved(Placeholder.(vf := VfOneOf(vals), dflt := DConst(first)), true, None)))
    case ValidatorObjBranch =>
      var tr := Get(spec, "transform");
      var fe := Get(spec, "formatError");
      Success(Resolved(Entry(
        VfCall(Get(spec, "vf")),
        LocalDefault(ctx, spec),
        if Truthy(fe) then FmtCall(fe) else FmtSame,
        if Truthy(tr) then Some(TrCall(tr)) else None), true, None))
    case FunctionBranch => Success(Resolved(Placeholder.(vf := VfCall(spec)), true, None))
    case NestedBranch => Success(NestedEntry(spec))
    case NoBranch => Success(Resolved(Placeholder, false, None))
  }

  /**
    The constructor markers: `String`, `Number` and `Boolean` default to `''`,
    `0` and `false` under the primitive checks; `Date` defaults to the current
    time, validates with `isDate` and transforms with `new Date`.
   */
  lemma ConstructorMarkers(ctx: Ctx)
    ensures ResolveInit(ctx, Ctor(StringCtor)).value.entry == Entry(VfString, DConst(Str("")), FmtSame, None)
    ensures ResolveInit(ctx, Ctor(NumberCtor)).value.entry == Entry(VfNumber, DConst(Num(0)), FmtSame, None)
    ensures ResolveInit(ctx, Ctor(BooleanCtor)).value.entry == Entry(VfBoolean, DConst(Bool(false)), FmtSame, None)
    ensures ResolveInit(ctx, Ctor(DateCtor)).value.entry == Entry(VfDate, DNow, FmtSame, Some(TrDate))
    ensures forall c ::
              RunDflt(ctx, ResolveInit(ctx, Ctor(c)).value.entry.dflt)
              == (match c
                  case DateCtor => ctx.host.now
                  case StringCtor => Str("")
                  case NumberCtor => Num(0)
                  case BooleanCtor => Bool(false))
  {
  }

  /**
    A validator object's default: a function default is called on every use, a
    non-function default is cloned once at setup (so every use yields that
    same clone), and a missing one is `undefined`.  Its transform and
    formatter are taken when truthy.
   */
  lemma ValidatorObjectEntry(ctx: Ctx, spec: Value)
    requires IsValidatorObj(spec) && !ctx.host.isEnum(spec)
    ensures ResolveInit(ctx, spec).Success?
    ensures ResolveInit(ctx, spec).value.entry.vf == VfCall(Get(spec, "vf"))
    ensures !Has(spec, "default") ==> RunDflt(ctx, ResolveInit(ctx, spec).value.entry.dflt) == Undef
    ensures Has(spec, "default") && Util.IsFn(Get(spec, "default")) ==>
      RunDflt(ctx, ResolveInit(ctx, spec).value.entry.dflt) == ctx.host.apply(Get(spec, "default"), Undef)
    ensures Has(spec, "default") && !Util.IsFn(Get(spec, "default")) ==>
      ResolveInit(ctx, spec).value.entry.dflt == DConst(ctx.clone(Get(spec, "default")))
    ensures ResolveInit(ctx, spec).value.entry.transform.Some? <==> Truthy(Get(spec, "transform"))
    ensures ResolveInit(ctx, spec).value.entry.fmt.FmtCall? <==> Truthy(Get(spec, "formatError"))
  {
    assert Classify(ctx.host, spec) == ValidatorObjBranch;
  }

  /**
    An enum validates membership in its values and defaults to the first of
    them; `undefined` when the enum has none.
   */
  lemma EnumEntry(ctx: Ctx, spec: Value)
    requires !spec.Ctor? && ctx.host.isEnum(spec) && spec.Obj? && !spec.kind.ArrayObj?
    ensures ResolveInit(ctx, spec).Success?
    ensures ResolveInit(ctx, spec).value.entry.vf == VfOneOf(Util.EnumVals(spec).value)
    ensures forall v :: RunVf(ctx.host, ResolveInit(ctx, spec).value.entry.vf, v) <==> v in Util.EnumVals(spec).value
    ensures |Util.EnumVals(spec).value| > 0 ==>
      RunDflt(ctx, ResolveInit(ctx, spec).value.entry.dflt) == Util.EnumVals(spec).value[0]
    ensures |Util.EnumVals(spec).value| == 0 ==>
      RunDflt(ctx, ResolveInit(ctx, spec).value.entry.dflt) == Undef
  {
  }

  /**
    A property no branch recognises keeps the placeholder, whose default
    `undefined` fails its truthiness check: such a key is reported twice.
   */
  lemma UnrecognisedFailsDefault(ctx: Ctx, spec: Value)
    requires Classify(ctx.host, spec) == NoBranch
    ensures ResolveInit(ctx, spec) == Success(Resolved(Placeholder, false, None))
    ensures !RunVf(ctx.host, Placeholder.vf, RunDflt(ctx, Placeholder.dflt))
  {
  }
}
