/**
  The earliest engine, `jetLogger.ts`: fields are `[default, validator]`
  arrays, validator functions, `Date`, enums or nested schemas; defaults come
  from a map keyed by validator function; every failure throws.
 */
module JetLogger {
  import opened Wrappers
  import opened JsValues
  import opened Env
  import Util

  // ---- messages ----

  const DefaultInvalid := "Default value " + "was missing or " + "invalid"
  const InstantiateWithParent := "Must insantiate " + "with parent if " + "schema is " + "neither " + "optional or " + "nullable"
  const NotAnObject := "test() failed: " + "Parameter was " + "not an object"

  /** The `TypeError` of calling a value that is not a function. */
  function NotAFunction(callee: string): string {
    callee + " is not a " + "function"
  }

  function InvalidProperty(key: string): string {
    "Property \"" + key + "\" was invalid."
  }

  function MissingOrInvalid(key: string): string {
    "Property \"" + key + "\" was missing " + "or invalid."
  }

  // ---- the schema function's configuration ----

  /** A field's validator: `isDate`, the enum membership closure, or a caller's value. */
  datatype LVf = LDate | LOneOf(vals: seq<Value>) | LCall(f: Value)

  /** A field's default thunk. */
  datatype LDflt =
    | LNow                 // `() => new Date()`
    | LClone(v: Value)     // `() => cloneFn(v)`
    | LChildNew(child: Value)  // `() => childSchema.new()`
    | LConst(v: Value)     // `() => v`

  /** What the schema function closes over: the host, `cloneFn` and `defaultValsMap`. */
  datatype LCtx = LCtx(host: Host, clone: Value -> Value, defaultVals: map<Value, Value>)

  /** `new Map(defaultValuesArr)` over its first `n` pairs: a later pair for the same function wins. */
  function DefaultValsUpTo(pairs: seq<(Value, Value)>, n: nat): map<Value, Value>
    requires n <= |pairs|
  {
    if n == 0 then map[] else DefaultValsUpTo(pairs, n - 1)[pairs[n - 1].0 := pairs[n - 1].1]
  }

  /** The map holds a function exactly when some pair names it. */
  lemma {:induction false} DefaultValsHas(pairs: seq<(Value, Value)>, n: nat, f: Value)
    requires n <= |pairs|
    ensures f in DefaultValsUpTo(pairs, n) <==> exists i :: 0 <= i < n && pairs[i].0 == f
  {
    if n > 0 {
      DefaultValsHas(pairs, n - 1, f);
      if pairs[n - 1].0 != f && f in DefaultValsUpTo(pairs, n) {
        var i :| 0 <= i < n - 1 && pairs[i].0 == f;
      }
    }
  }

  /** A function maps to the value of the last pair that names it. */
  lemma {:induction false} DefaultValsLastWins(pairs: seq<(Value, Value)>, n: nat, i: nat)
    requires i < n <= |pairs|
    requires forall j :: i < j < n ==> pairs[j].0 != pairs[i].0
    ensures pairs[i].0 in DefaultValsUpTo(pairs, n)
    ensures DefaultValsUpTo(pairs, n)[pairs[i].0] == pairs[i].1
  {
    if i < n - 1 {
      DefaultValsLastWins(pairs, n - 1, i);
    }
  }

  /** `_clone`: a Date becomes a new Date of the same time, another object is structured-cloned, a primitive returned. */
  function Clone(host: Host, v: Value): (r: Value)
    ensures !v.Obj? ==> r == v
    ensures v.Obj? && v.kind.DateObj? ==> r == Obj(v.kind, EmptyProps)
  {
    if v.Obj? && v.kind.DateObj? then Obj(v.kind, EmptyProps)
    else if Util.IsObj(v) then host.structuredClone(v)
    else v
  }

  /** `jetSchema(defaultValuesArr, cloneFnArg)`: a truthy `cloneFnArg` replaces `_clone`. */
  function JetLoggerCtx(host: Host, defaultValuesArr: Option<seq<(Value, Value)>>, cloneFnArg: Value): (ctx: LCtx)
    ensures defaultValuesArr.None? ==> ctx.defaultVals == map[]
    ensures !Truthy(cloneFnArg) ==> forall v :: ctx.clone(v) == Clone(host, v)
    ensures Truthy(cloneFnArg) ==> forall v :: ctx.clone(v) == host.apply(cloneFnArg, v)
  {
    var dv := if defaultValuesArr.Some? then DefaultValsUpTo(defaultValuesArr.value, |defaultValuesArr.value|) else map[];
    if Truthy(cloneFnArg) then LCtx(host, v => host.apply(cloneFnArg, v), dv)
    else LCtx(host, v => Clone(host, v), dv)
  }

  // ---- calling validators and thunks ----

  /** Calls a validator; calling a value that is not a function throws a `TypeError`. */
  function CallVf(host: Host, vf: LVf, arg: Value): (r: Result<bool>)
    ensures r.Failure? <==> vf.LCall? && !Util.IsFn(vf.f)
  {
    match vf
    case LDate => Success(IsDate(host, arg))
    case LOneOf(vals) => Success(arg in vals)
    case LCall(f) => if Util.IsFn(f) then Success(Truthy(host.apply(f, arg))) else Failure(NotAFunction("validators[key]"))
  }

  /** The `transformedVal` a validator leaves when its `transformedFlag` is set; only caller functions carry one. */
  function Transformed(host: Host, vf: LVf, arg: Value): Option<Value> {
    if vf.LCall? then host.transformed(vf.f, arg) else None
  }

  function RunLDflt(ctx: LCtx, d: LDflt): Value {
    match d
    case LNow => ctx.host.now
    case LClone(v) => ctx.clone(v)
    case LChildNew(child) => ctx.host.apply(Get(child, "new"), Undef)
    case LConst(v) => v
  }

  // ---- _setupDefaultsAndValidators ----

  /** `_isSchemaObj`: an object with a `_schemaSettings` key. */
  predicate IsSchemaObj(v: Value) {
    Util.IsObj(v) && Has(v, "_schemaSettings")
  }

  /** What one field spec contributes: its validator, its default thunk, and a child's `new` when nested. */
  datatype LField = LField(vf: Option<LVf>, dflt: Option<LDflt>, child: Option<Value>)

  /**
    How `_setupDefaultsAndValidators` reads one field spec: `Date`, then an
    array, then a schema, then an enum object, then a function (whose default
    is looked up by identity), then `null`; anything else sets nothing.
   */
  function FieldOf(ctx: LCtx, spec: Value): LField {
    if spec == Ctor(DateCtor) then LField(Some(LDate), Some(LNow), None)
    else if Util.IsArr(spec) then LField(Some(LCall(Get(spec, "1"))), Some(LClone(Get(spec, "0"))), None)
    else if IsSchemaObj(spec) then
      var dflt := Get(Get(spec, "_schemaSettings"), "defaultVal");
      LField(Some(LCall(Get(spec, "test"))), Some(if dflt == Bool(true) then LChildNew(spec) else LConst(dflt)), Some(spec))
    else if Util.IsObj(spec) then
      var vals := EnumValues(spec);
      LField(Some(LOneOf(vals)), Some(LClone(if |vals| > 0 then vals[0] else Undef)), None)
    else if Util.IsFn(spec) then
      LField(Some(LCall(spec)),
             if spec in ctx.defaultVals && ctx.defaultVals[spec] != Undef then Some(LConst(ctx.defaultVals[spec])) else None,
             None)
    else if spec == Null then LField(None, Some(LConst(Null)), None)
    else LField(None, None, None)
  }

  /**
    Only objects and functions get a validator; only a nested schema gets a
    child `new`; a function without a defined entry in the defaults map, or a
    spec that is neither object, function nor `null`, gets no default; an
    array gives its element 1 as validator and a clone of element 0 as default.
   */
  lemma FieldOfBranches(ctx: LCtx, spec: Value)
    ensures var r := FieldOf(ctx, spec);
      && (r.vf.None? <==> !Util.IsObj(spec) && !Util.IsFn(spec))
      && (r.child.Some? <==> IsSchemaObj(spec) && !Util.IsArr(spec))
      && (r.dflt.None? <==> (Util.IsFn(spec) && spec != Ctor(DateCtor)
                             && (spec !in ctx.defaultVals || ctx.defaultVals[spec] == Undef))
                            || (!Util.IsObj(spec) && !Util.IsFn(spec) && !spec.Null?))
      && (Util.IsArr(spec) ==> r == LField(Some(LCall(Get(spec, "1"))), Some(LClone(Get(spec, "0"))), None))
      && (spec == Ctor(DateCtor) ==> r == LField(Some(LDate), Some(LNow), None))
  {
  }

  /** `getEnumVals` on an object that is not an array, which cannot throw. */
  function EnumValues(spec: Value): seq<Value>
    requires spec.Obj? && !spec.kind.ArrayObj?
  {
    Util.EnumVals(spec).value
  }

  /**
    The check after each field, as written: the validator is called on the
    default THUNK `defaults[key]` rather than on its value, and setup throws
    when it ACCEPTS it.  The thunk is a fresh closure, or `undefined` when no
    default was set.  So `isDate` rejects it (`new Date` of a function is an
    invalid date), the enum closure rejects it (a fresh closure is `===` to no
    enum value), a nested schema's `test` throws its not-an-object error on it
    (see `ChildTestRejectsFunctions`), and a caller's function decides for
    itself.  A field without a validator throws a `TypeError`.
   */
  function FieldCheck(ctx: LCtx, key: string, fd: LField): (r: Result<bool>)
    ensures r.Success? ==> r.value == false
    ensures fd.vf.None? ==> r.Failure?
    ensures fd.dflt.Some? && fd.vf.Some? && (fd.vf.value.LDate? || fd.vf.value.LOneOf?) ==> r == Success(false)
    ensures fd.dflt.Some? && fd.child.Some? && fd.vf.Some? && fd.vf.value.LCall? && Util.IsFn(fd.vf.value.f) ==>
      r == Failure(NotAnObject)
    ensures fd.child.None? && fd.vf.Some? && fd.vf.value.LCall? && Util.IsFn(fd.vf.value.f) ==>
      && (r.Failure? <==> Truthy(ctx.host.apply(fd.vf.value.f, ThunkArg(ctx, key, fd))))
      && (r.Failure? ==> r.error == DefaultInvalid)
  {
    if fd.vf.None? then Failure(NotAFunction("validators[key]"))
    else
      var called :=
        if fd.dflt.None? then CallVf(ctx.host, fd.vf.value, Undef)
        else match fd.vf.value
          case LDate => Success(false)
          case LOneOf(_) => Success(false)
          case LCall(f) =>
            if !Util.IsFn(f) then Failure(NotAFunction("validators[key]"))
            else if fd.child.Some? then Failure(NotAnObject)
            else Success(Truthy(ctx.host.apply(f, ctx.host.thunkValue(key))));
      match called
      case Failure(e) => Failure(e)
      case Success(accepted) => if accepted then Failure(DefaultInvalid) else Success(false)
  }

  /** What a caller's validator is given at the check: the thunk's function object, or `undefined`. */
  function ThunkArg(ctx: LCtx, key: string, fd: LField): Value {
    if fd.dflt.Some? then ctx.host.thunkValue(key) else Undef
  }

  /** An enum field never throws at setup: its membership closure rejects the thunk. */
  lemma EnumFieldPasses(ctx: LCtx, key: string, spec: Value)
    requires Util.IsObj(spec) && !Util.IsArr(spec) && !IsSchemaObj(spec)
    ensures FieldCheck(ctx, key, FieldOf(ctx, spec)) == Success(false)
  {
  }

  /** A nested-schema field always throws at setup: the child's `test` rejects the thunk as a non-object. */
  lemma NestedFieldThrows(ctx: LCtx, key: string, spec: Value)
    requires IsSchemaObj(spec) && !Util.IsArr(spec) && Util.IsFn(Get(spec, "test"))
    ensures FieldCheck(ctx, key, FieldOf(ctx, spec)) == Failure(NotAnObject)
  {
  }

  /** The `defaults`, `validators` and `childSchemaNewFns` objects, each with its own key order. */
  datatype LHolder = LHolder(
    dfltKeys: seq<string>, defaults: map<string, LDflt>,
    vfKeys: seq<string>, validators: map<string, LVf>,
    childNew: map<string, Value>)

  const EmptyHolder := LHolder([], map[], [], map[], map[])

  function AddField(h: LHolder, key: string, fd: LField): LHolder {
    LHolder(
      if fd.dflt.Some? && key !in h.defaults then h.dfltKeys + [key] else h.dfltKeys,
      if fd.dflt.Some? then h.defaults[key := fd.dflt.value] else h.defaults,
      if fd.vf.Some? && key !in h.validators then h.vfKeys + [key] else h.vfKeys,
      if fd.vf.Some? then h.validators[key := fd.vf.value] else h.validators,
      if fd.child.Some? then h.childNew[key := fd.child.value] else h.childNew)
  }

  /** `FieldOf` as a function value: setup is stated for any classifier, which keeps its proofs small. */
  function Classifier(ctx: LCtx): Value -> LField {
    spec => FieldOf(ctx, spec)
  }

  /** The check after each field as a function value, for the same reason as `Classifier`. */
  type CheckFn = (string, LField) -> Result<bool>

  function Checker(ctx: LCtx): CheckFn {
    (key: string, fd: LField) => FieldCheck(ctx, key, fd)
  }

  /** The holder after the first `n` keys of the schema object, or what setup threw. */
  function LSetupUpTo(check: CheckFn, fieldOf: Value -> LField, fields: Props, n: nat): Result<LHolder>
    requires n <= |fields.keys|
  {
    if n == 0 then Success(EmptyHolder)
    else
      match LSetupUpTo(check, fieldOf, fields, n - 1)
      case Failure(e) => Failure(e)
      case Success(h) =>
        var key := fields.keys[n - 1];
        var fd := fieldOf(Lookup(fields, key));
        match check(key, fd)
        case Failure(e) => Failure(e)
        case Success(_) => Success(AddField(h, key, fd))
  }

  /** `_setupDefaultsAndValidators`: one pass over the schema object's keys. */
  method SetupDefaultsAndValidators(ctx: LCtx, fields: Props) returns (r: Result<LHolder>)
    ensures r == LSetupUpTo(Checker(ctx), Classifier(ctx), fields, |fields.keys|)
  {
    var h := EmptyHolder;
    for i := 0 to |fields.keys|
      invariant LSetupUpTo(Checker(ctx), Classifier(ctx), fields, i) == Success(h)
    {
      var key := fields.keys[i];
      var fd := FieldOf(ctx, Lookup(fields, key));
      var check := FieldCheck(ctx, key, fd);
      if check.Failure? {
        LFailureSticks(Checker(ctx), Classifier(ctx), fields, i + 1, |fields.keys|);
        return Failure(check.error);
      }
      h := AddField(h, key, fd);
    }
    r := Success(h);
  }

  /** A validator that can be called without a `TypeError`. */
  predicate Callable(vf: LVf) {
    !(vf.LCall? && !Util.IsFn(vf.f))
  }

  /** A field that passes the check has a callable validator. */
  lemma CheckedCallable(ctx: LCtx, key: string, fd: LField)
    requires FieldCheck(ctx, key, fd).Success?
    ensures fd.vf.Some? && Callable(fd.vf.value)
  {
  }

  /** A check that passes only fields with a callable validator. */
  ghost predicate CallableChecks(check: CheckFn) {
    forall key, fd :: check(key, fd).Success? ==> fd.vf.Some? && Callable(fd.vf.value)
  }

  lemma CheckerCallable(ctx: LCtx)
    ensures CallableChecks(Checker(ctx))
  {
    forall key, fd | Checker(ctx)(key, fd).Success?
      ensures fd.vf.Some? && Callable(fd.vf.value)
    {
      CheckedCallable(ctx, key, fd);
    }
  }

  /** A holder as a successful setup leaves it. */
  predicate LHolderOk(h: LHolder) {
    && Distinct(h.vfKeys) && Distinct(h.dfltKeys)
    && (forall k :: k in h.validators ==> k in h.vfKeys) && (forall k :: k in h.vfKeys ==> k in h.validators)
    && (forall k :: k in h.defaults ==> k in h.dfltKeys) && (forall k :: k in h.dfltKeys ==> k in h.defaults)
    && (forall k :: k in h.validators ==> Callable(h.validators[k]))
  }

  /** Once a key has thrown, setup stays failed with that exception. */
  lemma {:induction false} LFailureSticks(check: CheckFn, fieldOf: Value -> LField, fields: Props, n: nat, m: nat)
    requires n <= m <= |fields.keys| && LSetupUpTo(check, fieldOf, fields, n).Failure?
    ensures LSetupUpTo(check, fieldOf, fields, m) == LSetupUpTo(check, fieldOf, fields, n)
    decreases m - n
  {
    if n < m {
      LFailureSticks(check, fieldOf, fields, n + 1, m);
    }
  }

  /** The holder after the first `n` keys: each key's validator and default as its spec gives them. */
  ghost predicate HolderMatches(fieldOf: Value -> LField, fields: Props, n: nat, h: LHolder)
    requires n <= |fields.keys|
  {
    LHolderOk(h) && h.vfKeys == fields.keys[..n] && HolderFields(fieldOf, fields, n, h)
  }

  ghost predicate HolderFields(fieldOf: Value -> LField, fields: Props, n: nat, h: LHolder)
    requires n <= |fields.keys|
  {
    && (forall k :: k in fields.keys[..n] ==>
          k in h.validators && fieldOf(Lookup(fields, k)).vf == Some(h.validators[k])
          && (k in h.defaults <==> fieldOf(Lookup(fields, k)).dflt.Some?)
          && (k in h.defaults ==> fieldOf(Lookup(fields, k)).dflt == Some(h.defaults[k])))
    && (forall k :: k in h.defaults ==> k in fields.keys[..n])
  }

  /** The key set up at step `n` is new: the schema object's keys are distinct. */
  lemma FreshField(fields: Props, n: nat)
    requires 0 < n <= |fields.keys| && Distinct(fields.keys)
    ensures fields.keys[..n] == fields.keys[..n - 1] + [fields.keys[n - 1]]
    ensures fields.keys[n - 1] !in fields.keys[..n - 1]
  {
    assert fields.keys[..n] == fields.keys[..n - 1] + [fields.keys[n - 1]];
    forall j | 0 <= j < n - 1 ensures fields.keys[j] != fields.keys[n - 1] { }
  }

  /** A checked field keeps the holder well formed and appends its key to the validator order. */
  lemma HolderStepOk(fieldOf: Value -> LField, fields: Props, n: nat, h: LHolder)
    requires 0 < n <= |fields.keys| && Distinct(fields.keys)
    requires HolderMatches(fieldOf, fields, n - 1, h)
    requires fieldOf(Lookup(fields, fields.keys[n - 1])).vf.Some? && Callable(fieldOf(Lookup(fields, fields.keys[n - 1])).vf.value)
    ensures var h2 := AddField(h, fields.keys[n - 1], fieldOf(Lookup(fields, fields.keys[n - 1])));
      LHolderOk(h2) && h2.vfKeys == fields.keys[..n]
  {
    FreshField(fields, n);
    var key := fields.keys[n - 1];
    var fd := fieldOf(Lookup(fields, key));
    var h2 := AddField(h, key, fd);
    assert key !in h.validators && key !in h.defaults;
    assert h2.vfKeys == h.vfKeys + [key];
    assert Distinct(h2.dfltKeys) by {
      if fd.dflt.Some? {
        assert key !in h.dfltKeys;
      }
    }
  }

  /** Adding the field at step `n` extends the per-key facts to the first `n` keys. */
  lemma FieldsStep(fieldOf: Value -> LField, fields: Props, n: nat, h: LHolder)
    requires 0 < n <= |fields.keys| && Distinct(fields.keys)
    requires HolderFields(fieldOf, fields, n - 1, h) && fieldOf(Lookup(fields, fields.keys[n - 1])).vf.Some?
    ensures HolderFields(fieldOf, fields, n, AddField(h, fields.keys[n - 1], fieldOf(Lookup(fields, fields.keys[n - 1]))))
  {
    FreshField(fields, n);
    var key := fields.keys[n - 1];
    var h2 := AddField(h, key, fieldOf(Lookup(fields, key)));
    forall k | k in fields.keys[..n]
      ensures k in h2.validators && fieldOf(Lookup(fields, k)).vf == Some(h2.validators[k])
      ensures k in h2.defaults <==> fieldOf(Lookup(fields, k)).dflt.Some?
      ensures k in h2.defaults ==> fieldOf(Lookup(fields, k)).dflt == Some(h2.defaults[k])
    {
      if k != key {
        assert k in fields.keys[..n - 1];
      }
    }
  }

  /** One checked field extends a matching holder. */
  lemma HolderStep(fieldOf: Value -> LField, fields: Props, n: nat, h: LHolder)
    requires 0 < n <= |fields.keys| && Distinct(fields.keys)
    requires HolderMatches(fieldOf, fields, n - 1, h)
    requires fieldOf(Lookup(fields, fields.keys[n - 1])).vf.Some? && Callable(fieldOf(Lookup(fields, fields.keys[n - 1])).vf.value)
    ensures HolderMatches(fieldOf, fields, n, AddField(h, fields.keys[n - 1], fieldOf(Lookup(fields, fields.keys[n - 1]))))
  {
    HolderStepOk(fieldOf, fields, n, h);
    FieldsStep(fieldOf, fields, n, h);
  }

  /** Setup succeeds exactly when every field passes the check. */
  lemma {:induction false} LSetupOk(check: CheckFn, fieldOf: Value -> LField, fields: Props, n: nat)
    requires n <= |fields.keys|
    ensures LSetupUpTo(check, fieldOf, fields, n).Success? <==>
      forall i :: 0 <= i < n ==> check(fields.keys[i], fieldOf(Lookup(fields, fields.keys[i]))).Success?
  {
    if n > 0 {
      LSetupOk(check, fieldOf, fields, n - 1);
    }
  }

  /**
    Setup succeeds exactly when every field has a callable validator that
    rejects its default thunk; then every key has its validator, in the
    schema object's order, and a default exactly when its spec gives one.
   */
  lemma {:induction false} LSetupResult(check: CheckFn, fieldOf: Value -> LField, fields: Props, n: nat)
    requires n <= |fields.keys| && Distinct(fields.keys) && CallableChecks(check)
    ensures LSetupUpTo(check, fieldOf, fields, n).Success? <==>
      forall i :: 0 <= i < n ==>
        check(fields.keys[i], fieldOf(Lookup(fields, fields.keys[i]))).Success?
    ensures LSetupUpTo(check, fieldOf, fields, n).Success? ==> HolderMatches(fieldOf, fields, n, LSetupUpTo(check, fieldOf, fields, n).value)
  {
    LSetupOk(check, fieldOf, fields, n);
    if n > 0 {
      LSetupResult(check, fieldOf, fields, n - 1);
      var prev := LSetupUpTo(check, fieldOf, fields, n - 1);
      var key := fields.keys[n - 1];
      var fd := fieldOf(Lookup(fields, key));
      if prev.Success? && check(key, fd).Success? {
        HolderStep(fieldOf, fields, n, prev.value);
        assert LSetupUpTo(check, fieldOf, fields, n) == Success(AddField(prev.value, key, fd));
      }
    }
  }

  /** Hence a schema object with a nested-schema field cannot be set up. */
  lemma NestedSetupFails(ctx: LCtx, fields: Props, i: nat)
    requires i < |fields.keys|
    requires IsSchemaObj(Lookup(fields, fields.keys[i])) && !Util.IsArr(Lookup(fields, fields.keys[i]))
    requires Util.IsFn(Get(Lookup(fields, fields.keys[i]), "test"))
    ensures LSetupUpTo(Checker(ctx), Classifier(ctx), fields, |fields.keys|).Failure?
  {
    NestedFieldThrows(ctx, fields.keys[i], Lookup(fields, fields.keys[i]));
    LSetupOk(Checker(ctx), Classifier(ctx), fields, |fields.keys|);
  }

  // ---- the schema function ----

  /** The three positional settings after their destructuring defaults `false`, `false`, `true`. */
  datatype Settings = Settings(isOptional: Value, isNullable: Value, defaultVal: Value)

  function SettingsOf(rest: seq<Value>): (s: Settings)
    ensures |rest| == 0 ==> s == Settings(Bool(false), Bool(false), Bool(true))
  {
    Settings(Given(rest, 0, Bool(false)), Given(rest, 1, Bool(false)), Given(rest, 2, Bool(true)))
  }

  /** A destructured argument: its default when absent or `undefined`. */
  function Given(rest: seq<Value>, i: nat, dflt: Value): (v: Value)
    ensures i >= |rest| || rest[i] == Undef ==> v == dflt
    ensures i < |rest| && rest[i] != Undef ==> v == rest[i]
  {
    if i < |rest| && rest[i] != Undef then rest[i] else dflt
  }

  datatype LSchema = LSchema(ctx: LCtx, fields: Props, settings: Settings, holder: LHolder)

  predicate LSchemaOk(sch: LSchema) {
    LHolderOk(sch.holder)
  }

  /** The factory rejects a schema that is neither optional nor nullable and has a falsy `defaultVal`. */
  predicate NeedsParent(s: Settings) {
    !Truthy(s.isOptional) && !Truthy(s.isNullable) && !Truthy(s.defaultVal)
  }

  /** The schema function: setup first (which may throw), then the guard. */
  function CreateLoggerSpec(ctx: LCtx, fields: Props, rest: seq<Value>): Result<LSchema> {
    match LSetupUpTo(Checker(ctx), Classifier(ctx), fields, |fields.keys|)
    case Failure(e) => Failure(e)
    case Success(h) =>
      var s := SettingsOf(rest);
      if NeedsParent(s) then Failure(InstantiateWithParent) else Success(LSchema(ctx, fields, s, h))
  }

  method CreateLogger(ctx: LCtx, fields: Props, rest: seq<Value>) returns (r: Result<LSchema>)
    ensures r == CreateLoggerSpec(ctx, fields, rest)
  {
    var isOptional := if |rest| > 0 && rest[0] != Undef then rest[0] else Bool(false);
    var isNullable := if |rest| > 1 && rest[1] != Undef then rest[1] else Bool(false);
    var defaultVal := if |rest| > 2 && rest[2] != Undef then rest[2] else Bool(true);
    var ret := SetupDefaultsAndValidators(ctx, fields);
    if ret.Failure? {
      return Failure(ret.error);
    }
    if !Truthy(isOptional) && !Truthy(isNullable) && !Truthy(defaultVal) {
      return Failure(InstantiateWithParent);
    }
    r := Success(LSchema(ctx, fields, Settings(isOptional, isNullable, defaultVal), ret.value));
  }

  /**
    Given well-formed field specs, the schema function succeeds exactly when
    setup does and the guard lets it through; its schema is well formed
    and keeps the settings with their defaults.
   */
  lemma CreatedLogger(ctx: LCtx, fields: Props, rest: seq<Value>)
    requires Distinct(fields.keys)
    ensures var r := CreateLoggerSpec(ctx, fields, rest);
      && (r.Success? <==> LSetupUpTo(Checker(ctx), Classifier(ctx), fields, |fields.keys|).Success? && !NeedsParent(SettingsOf(rest)))
      && (r.Success? ==> LSchemaOk(r.value) && r.value.settings == SettingsOf(rest)
                         && r.value.holder.vfKeys == fields.keys)
      && (LSetupUpTo(Checker(ctx), Classifier(ctx), fields, |fields.keys|).Success? && NeedsParent(SettingsOf(rest)) ==>
            r == Failure(InstantiateWithParent))
  {
    CheckerCallable(ctx);
    LSetupResult(Checker(ctx), Classifier(ctx), fields, |fields.keys|);
    assert fields.keys[..|fields.keys|] == fields.keys;
  }

  /** With no settings given, the guard passes: `defaultVal` defaults to `true`. */
  lemma DefaultSettingsNeedNoParent()
    ensures !NeedsParent(SettingsOf([]))
  {
  }

  // ---- new ----

  /** Every default thunk of the first `n` keys that have one, called in order. */
  function LDefaultsUpTo(sch: LSchema, n: nat): Props
    requires LSchemaOk(sch) && n <= |sch.holder.dfltKeys|
  {
    if n == 0 then EmptyProps
    else
      var key := sch.holder.dfltKeys[n - 1];
      Put(LDefaultsUpTo(sch, n - 1), key, RunLDflt(sch.ctx, sch.holder.defaults[key]))
  }

  /** What `new` stores for a partial value its validator accepted. */
  function Stored(sch: LSchema, vf: LVf, val: Value): Value {
    var t := Transformed(sch.ctx.host, vf, val);
    if t.Some? then t.value else sch.ctx.clone(val)
  }

  /** Overlaying the first `n` keys of the partial, or the exception thrown. */
  function LOverlayUpTo(sch: LSchema, p: Props, base: Props, n: nat): Result<Props>
    requires LSchemaOk(sch) && n <= |p.keys|
  {
    if n == 0 then Success(base)
    else
      match LOverlayUpTo(sch, p, base, n - 1)
      case Failure(e) => Failure(e)
      case Success(ret) =>
        var key := p.keys[n - 1];
        var val := Lookup(p, key);
        if key !in sch.holder.validators then Failure(NotAFunction("testFn"))
        else
          var vf := sch.holder.validators[key];
          match CallVf(sch.ctx.host, vf, val)
          case Failure(e) => Failure(e)
          case Success(ok) => if ok then Success(Put(ret, key, Stored(sch, vf, val))) else Failure(InvalidProperty(key))
  }

  /** `new(partial)`: a missing partial is `{}`; a non-object has no keys to overlay. */
  function LNewSpec(sch: LSchema, partial: Value): Result<Props>
    requires LSchemaOk(sch)
  {
    var p := if partial.Obj? then partial.own else EmptyProps;
    LOverlayUpTo(sch, p, LDefaultsUpTo(sch, |sch.holder.dfltKeys|), |p.keys|)
  }

  method LNew(sch: LSchema, partial: Value) returns (r: Result<Props>)
    requires LSchemaOk(sch)
    ensures r == LNewSpec(sch, partial)
  {
    var retVal := EmptyProps;
    for i := 0 to |sch.holder.dfltKeys|
      invariant retVal == LDefaultsUpTo(sch, i)
    {
      var dflt := sch.holder.dfltKeys[i];
      retVal := Put(retVal, dflt, RunLDflt(sch.ctx, sch.holder.defaults[dflt]));
    }
    ghost var base := retVal;
    var p := if partial.Obj? then partial.own else EmptyProps;
    for i := 0 to |p.keys|
      invariant LOverlayUpTo(sch, p, base, i) == Success(retVal)
    {
      var key := p.keys[i];
      if key !in sch.holder.validators {
        LOverlayFailureSticks(sch, p, base, i + 1, |p.keys|);
        return Failure(NotAFunction("testFn"));
      }
      var testFn := sch.holder.validators[key];
      // Every validator of a set-up schema is callable.
      var ok := CallVf(sch.ctx.host, testFn, Lookup(p, key)).value;
      if ok {
        var t := Transformed(sch.ctx.host, testFn, Lookup(p, key));
        if t.Some? {
          retVal := Put(retVal, key, t.value);
        } else {
          retVal := Put(retVal, key, sch.ctx.clone(Lookup(p, key)));
        }
      } else {
        LOverlayFailureSticks(sch, p, base, i + 1, |p.keys|);
        return Failure(InvalidProperty(key));
      }
    }
    r := Success(retVal);
  }

  /** One key of the defaults object: present exactly when it has a default thunk, holding that thunk's value. */
  lemma {:induction false} LDefaultsAt(sch: LSchema, n: nat, k: string)
    requires LSchemaOk(sch) && n <= |sch.holder.dfltKeys|
    ensures var d := LDefaultsUpTo(sch, n);
      && WellFormed(d)
      && (k in d.vals <==> k in sch.holder.dfltKeys[..n])
      && (k in d.vals ==> d.vals[k] == RunLDflt(sch.ctx, sch.holder.defaults[k]))
  {
    if n > 0 {
      LDefaultsAt(sch, n - 1, k);
      PrefixIn(sch.holder.dfltKeys, n, k);
    }
  }

  /** The defaults object holds exactly the keys with a default thunk, each with its thunk's value. */
  lemma LDefaultsContent(sch: LSchema, n: nat)
    requires LSchemaOk(sch) && n <= |sch.holder.dfltKeys|
    ensures var d := LDefaultsUpTo(sch, n);
      && WellFormed(d)
      && (forall k :: k in d.vals <==> k in sch.holder.dfltKeys[..n])
      && (forall k :: k in d.vals ==> d.vals[k] == RunLDflt(sch.ctx, sch.holder.defaults[k]))
  {
    LDefaultsAt(sch, n, "");
    forall k ensures var d := LDefaultsUpTo(sch, n);
        (k in d.vals <==> k in sch.holder.dfltKeys[..n]) && (k in d.vals ==> d.vals[k] == RunLDflt(sch.ctx, sch.holder.defaults[k]))
    {
      LDefaultsAt(sch, n, k);
    }
  }

  lemma {:induction false} LOverlayFailureSticks(sch: LSchema, p: Props, base: Props, n: nat, m: nat)
    requires LSchemaOk(sch) && n <= m <= |p.keys| && LOverlayUpTo(sch, p, base, n).Failure?
    ensures LOverlayUpTo(sch, p, base, m) == LOverlayUpTo(sch, p, base, n)
    decreases m - n
  {
    if n < m {
      LOverlayFailureSticks(sch, p, base, n + 1, m);
    }
  }

  /** A partial key `new` accepts: declared, and its validator returns `true` on the value. */
  predicate Accepted(sch: LSchema, p: Props, k: string) {
    k in sch.holder.validators && CallVf(sch.ctx.host, sch.holder.validators[k], Lookup(p, k)) == Success(true)
  }

  /** Overlaying succeeds exactly when every partial key so far is accepted. */
  lemma {:induction false} LOverlayOk(sch: LSchema, p: Props, base: Props, n: nat)
    requires LSchemaOk(sch) && n <= |p.keys|
    ensures LOverlayUpTo(sch, p, base, n).Success? <==> forall i :: 0 <= i < n ==> Accepted(sch, p, p.keys[i])
  {
    if n > 0 {
      LOverlayOk(sch, p, base, n - 1);
    }
  }

  /** The overlay after the first `n` partial keys: accepted keys stored, the rest of the base kept. */
  ghost predicate OverlayMatches(sch: LSchema, p: Props, base: Props, n: nat, r: Props)
    requires LSchemaOk(sch) && n <= |p.keys|
  {
    && WellFormed(r)
    && (forall k :: k in r.vals <==> k in base.vals || k in p.keys[..n])
    && (forall i :: 0 <= i < n ==>
          p.keys[i] in sch.holder.validators
          && r.vals[p.keys[i]] == Stored(sch, sch.holder.validators[p.keys[i]], Lookup(p, p.keys[i])))
    && (forall k :: k in base.vals && k !in p.keys[..n] ==> r.vals[k] == base.vals[k])
  }

  lemma OverlayStep(sch: LSchema, p: Props, base: Props, n: nat, r: Props)
    requires LSchemaOk(sch) && 0 < n <= |p.keys| && Distinct(p.keys)
    requires OverlayMatches(sch, p, base, n - 1, r) && Accepted(sch, p, p.keys[n - 1])
    ensures var key := p.keys[n - 1];
      OverlayMatches(sch, p, base, n, Put(r, key, Stored(sch, sch.holder.validators[key], Lookup(p, key))))
  {
    var key := p.keys[n - 1];
    assert p.keys[..n] == p.keys[..n - 1] + [key];
    forall i | 0 <= i < n - 1 ensures p.keys[i] != key { }
  }

  /**
    When overlaying succeeds, each accepted key holds what `new` stores for
    it, and every other key keeps the base value.
   */
  lemma {:induction false} LOverlayContent(sch: LSchema, p: Props, base: Props, n: nat)
    requires LSchemaOk(sch) && n <= |p.keys| && Distinct(p.keys) && WellFormed(base)
    ensures LOverlayUpTo(sch, p, base, n).Success? ==> OverlayMatches(sch, p, base, n, LOverlayUpTo(sch, p, base, n).value)
  {
    if n > 0 {
      LOverlayContent(sch, p, base, n - 1);
      LOverlayOk(sch, p, base, n);
      var prev := LOverlayUpTo(sch, p, base, n - 1);
      if LOverlayUpTo(sch, p, base, n).Success? {
        assert Accepted(sch, p, p.keys[n - 1]);
        OverlayStep(sch, p, base, n, prev.value);
      }
    }
  }

  /**
    `new(partial)` throws exactly when some partial key is undeclared or
    rejected by its validator; otherwise it returns the defaults overlaid by
    the stored partial values.
   */
  lemma LNewResult(sch: LSchema, partial: Value)
    requires LSchemaOk(sch) && (partial.Obj? ==> Distinct(partial.own.keys))
    ensures var p := if partial.Obj? then partial.own else EmptyProps;
      var r := LNewSpec(sch, partial);
      && (r.Success? <==> forall k :: k in p.keys ==> Accepted(sch, p, k))
      && (r.Success? ==>
            (forall k :: k in r.value.vals <==> k in sch.holder.defaults || k in p.keys)
            && (forall k :: k in p.keys ==> r.value.vals[k] == Stored(sch, sch.holder.validators[k], Lookup(p, k)))
            && (forall k :: k in sch.holder.defaults && k !in p.keys ==>
                  r.value.vals[k] == RunLDflt(sch.ctx, sch.holder.defaults[k])))
  {
    var p := if partial.Obj? then partial.own else EmptyProps;
    var n := |sch.holder.dfltKeys|;
    LDefaultsContent(sch, n);
    assert sch.holder.dfltKeys[..n] == sch.holder.dfltKeys;
    var base := LDefaultsUpTo(sch, n);
    LOverlayContent(sch, p, base, |p.keys|);
    LOverlayOk(sch, p, base, |p.keys|);
    assert p.keys[..|p.keys|] == p.keys;
    var r := LNewSpec(sch, partial);
    if r.Success? {
      forall k | k in p.keys
        ensures r.value.vals[k] == Stored(sch, sch.holder.validators[k], Lookup(p, k))
      {
        var i :| 0 <= i < |p.keys| && p.keys[i] == k;
      }
    }
    if forall k :: k in p.keys ==> Accepted(sch, p, k) {
      forall i | 0 <= i < |p.keys| ensures Accepted(sch, p, p.keys[i]) {
        assert p.keys[i] in p.keys;
      }
    }
  }

  // ---- test ----

  /** The outcome of `test(arg)` and the argument afterwards, write-backs done before a throw included. */
  datatype LTestOutcome = LTestOutcome(result: Result<bool>, after: Value)

  /** The loop over the first `n` validator keys on the object's properties. */
  function LCheckUpTo(sch: LSchema, own: Props, n: nat): (Result<bool>, Props)
    requires LSchemaOk(sch) && n <= |sch.holder.vfKeys|
  {
    if n == 0 then (Success(true), own)
    else
      var (res, cur) := LCheckUpTo(sch, own, n - 1);
      if res.Failure? then (res, cur)
      else
        var key := sch.holder.vfKeys[n - 1];
        var vf := sch.holder.validators[key];
        var val := Lookup(cur, key);
        match CallVf(sch.ctx.host, vf, val)
        case Failure(e) => (Failure(e), cur)
        case Success(ok) =>
          if !ok then (Failure(MissingOrInvalid(key)), cur)
          else
            var t := Transformed(sch.ctx.host, vf, val);
            (Success(true), if t.Some? then Put(cur, key, t.value) else cur)
  }

  function LTestSpec(sch: LSchema, arg: Value): (t: LTestOutcome)
    requires LSchemaOk(sch)
    ensures t.result.Success? ==> t.result.value
    ensures !arg.Obj? ==> t.after == arg
    ensures arg == Undef && Truthy(sch.settings.isOptional) ==> t.result == Success(true)
    ensures arg == Null && Truthy(sch.settings.isNullable) ==> t.result == Success(true)
    ensures !arg.Obj? && !(arg == Undef && Truthy(sch.settings.isOptional)) && !(arg == Null && Truthy(sch.settings.isNullable)) ==>
      t.result == Failure(NotAnObject)
  {
    if arg == Undef && Truthy(sch.settings.isOptional) then LTestOutcome(Success(true), arg)
    else if arg == Null && Truthy(sch.settings.isNullable) then LTestOutcome(Success(true), arg)
    else if !Util.IsObj(arg) then LTestOutcome(Failure(NotAnObject), arg)
    else
      var (res, own) := LCheckUpTo(sch, arg.own, |sch.holder.vfKeys|);
      LTestOutcome(res, Obj(arg.kind, own))
  }

  /** `test`: never returns `false`; it throws instead. */
  /** The rule `FieldCheck` gives a nested schema's `test`: a jetLogger schema's `test` throws on a function. */
  lemma ChildTestRejectsFunctions(sch: LSchema, f: Value)
    requires LSchemaOk(sch) && Util.IsFn(f)
    ensures LTestSpec(sch, f).result == Failure(NotAnObject)
  {
  }

  lemma {:induction false} LCheckNeverFalse(sch: LSchema, own: Props, n: nat)
    requires LSchemaOk(sch) && n <= |sch.holder.vfKeys|
    ensures LCheckUpTo(sch, own, n).0.Success? ==> LCheckUpTo(sch, own, n).0.value
  {
    if n > 0 {
      LCheckNeverFalse(sch, own, n - 1);
    }
  }

  method LTest(sch: LSchema, arg: Arg) returns (r: Result<bool>)
    requires LSchemaOk(sch)
    modifies arg.Footprint()
    ensures var t := LTestSpec(sch, old(arg.Current()));
      r == t.result && arg.Current() == t.after
  {
    if arg.Prim? {
      var v := arg.v;
      if v == Undef && Truthy(sch.settings.isOptional) {
        return Success(true);
      } else if v == Null && Truthy(sch.settings.isNullable) {
        return Success(true);
      }
      return Failure(NotAnObject);
    }
    var o := arg.o;
    ghost var own0 := o.own;
    var keys := sch.holder.vfKeys;
    for i := 0 to |keys|
      invariant LCheckUpTo(sch, own0, i) == (Success(true), o.own)
      invariant o.kind == old(o.kind)
    {
      var key := keys[i];
      var testFn := sch.holder.validators[key];
      var val := Lookup(o.own, key);
      var ok := CallVf(sch.ctx.host, testFn, val).value;
      if !ok {
        LCheckFailureSticks(sch, own0, i + 1, |keys|);
        return Failure(MissingOrInvalid(key));
      }
      var t := Transformed(sch.ctx.host, testFn, val);
      if t.Some? {
        o.Set(key, t.value);
      }
    }
    r := Success(true);
  }

  lemma {:induction false} LCheckFailureSticks(sch: LSchema, own: Props, n: nat, m: nat)
    requires LSchemaOk(sch) && n <= m <= |sch.holder.vfKeys| && LCheckUpTo(sch, own, n).0.Failure?
    ensures LCheckUpTo(sch, own, m) == LCheckUpTo(sch, own, n)
    decreases m - n
  {
    if n < m {
      LCheckFailureSticks(sch, own, n + 1, m);
    }
  }

  /** A declared key's validator returns `true` on the key's value. */
  predicate Passes(sch: LSchema, own: Props, k: string) {
    k in sch.holder.validators && CallVf(sch.ctx.host, sch.holder.validators[k], Lookup(own, k)) == Success(true)
  }

  /** The value a key holds after `test`: the validator's `transformedVal` when it leaves one. */
  function WrittenBack(sch: LSchema, own: Props, k: string): Value
    requires k in sch.holder.validators
  {
    var t := Transformed(sch.ctx.host, sch.holder.validators[k], Lookup(own, k));
    if t.Some? then t.value else Lookup(own, k)
  }

  /** The properties after the first `n` validator keys: those written back, the rest untouched. */
  ghost predicate CheckMatches(sch: LSchema, own: Props, n: nat, cur: Props)
    requires LSchemaOk(sch) && n <= |sch.holder.vfKeys|
  {
    && WellFormed(cur)
    && (forall k :: k !in sch.holder.vfKeys[..n] ==> Lookup(cur, k) == Lookup(own, k))
    && (forall i :: 0 <= i < n ==> Lookup(cur, sch.holder.vfKeys[i]) == WrittenBack(sch, own, sch.holder.vfKeys[i]))
  }

  lemma CheckStep(sch: LSchema, own: Props, n: nat, cur: Props)
    requires LSchemaOk(sch) && 0 < n <= |sch.holder.vfKeys|
    requires CheckMatches(sch, own, n - 1, cur)
    ensures var key := sch.holder.vfKeys[n - 1];
      && Lookup(cur, key) == Lookup(own, key)
      && var t := Transformed(sch.ctx.host, sch.holder.validators[key], Lookup(own, key));
         CheckMatches(sch, own, n, if t.Some? then Put(cur, key, t.value) else cur)
  {
    var keys := sch.holder.vfKeys;
    var key := keys[n - 1];
    assert key !in keys[..n - 1] by {
      forall j | 0 <= j < n - 1 ensures keys[j] != key { }
    }
    var t := Transformed(sch.ctx.host, sch.holder.validators[key], Lookup(own, key));
    var next := if t.Some? then Put(cur, key, t.value) else cur;
    forall k | k !in keys[..n] ensures Lookup(next, k) == Lookup(own, k) {
      assert k != key by { assert keys[..n][n - 1] == key; }
      assert k !in keys[..n - 1] by { assert keys[..n - 1] == keys[..n][..n - 1]; }
    }
    forall i | 0 <= i < n ensures Lookup(next, keys[i]) == WrittenBack(sch, own, keys[i]) {
      if i < n - 1 {
        assert keys[i] != key;
      }
    }
  }

  /** The loop passes exactly when every validator accepts its key's original value. */
  lemma {:induction false} LCheckOk(sch: LSchema, own: Props, n: nat)
    requires LSchemaOk(sch) && n <= |sch.holder.vfKeys| && WellFormed(own)
    ensures LCheckUpTo(sch, own, n).0.Success? <==> forall i :: 0 <= i < n ==> Passes(sch, own, sch.holder.vfKeys[i])
  {
    if n > 0 {
      LCheckOk(sch, own, n - 1);
      LCheckContent(sch, own, n - 1);
    }
  }

  /**
    When the loop passes, each key whose validator leaves a `transformedVal`
    holds it and every other property is as it was.
   */
  lemma {:induction false} LCheckContent(sch: LSchema, own: Props, n: nat)
    requires LSchemaOk(sch) && n <= |sch.holder.vfKeys| && WellFormed(own)
    ensures LCheckUpTo(sch, own, n).0.Success? ==> CheckMatches(sch, own, n, LCheckUpTo(sch, own, n).1)
  {
    if n > 0 {
      LCheckContent(sch, own, n - 1);
      var prev := LCheckUpTo(sch, own, n - 1);
      if prev.0.Success? {
        CheckStep(sch, own, n, prev.1);
      }
    }
  }

  /** On an object, `test` returns `true` exactly when every validator accepts its key's value, and throws otherwise. */
  lemma LTestIff(sch: LSchema, arg: Value)
    requires LSchemaOk(sch) && arg.Obj? && WellFormed(arg.own)
    ensures LTestSpec(sch, arg).result == Success(true) <==>
      forall k :: k in sch.holder.validators ==> Passes(sch, arg.own, k)
    ensures LTestSpec(sch, arg).result != Success(true) ==> LTestSpec(sch, arg).result.Failure?
  {
    var n := |sch.holder.vfKeys|;
    LCheckOk(sch, arg.own, n);
    LCheckNeverFalse(sch, arg.own, n);
    if forall k :: k in sch.holder.validators ==> Passes(sch, arg.own, k) {
      forall i | 0 <= i < n ensures Passes(sch, arg.own, sch.holder.vfKeys[i]) {
        assert sch.holder.vfKeys[i] in sch.holder.validators;
      }
    }
  }

  // ---- pick ----

  /** `pick(p)`: the key's default thunk and validator, and for a nested schema its `pick` and `new`. */
  datatype LPick = LPick(dflt: Option<LDflt>, test: Option<LVf>, nested: Option<(Value, Value)>)

  function LPickSpec(sch: LSchema, p: string): (r: Option<LPick>)
    ensures r.None? <==> !Truthy(Lookup(sch.fields, p))
    ensures r.Some? ==> (r.value.nested.Some? <==> IsSchemaObj(Lookup(sch.fields, p)))
    ensures r.Some? && p in sch.holder.validators ==> r.value.test == Some(sch.holder.validators[p])
    ensures r.Some? && p in sch.holder.defaults ==> r.value.dflt == Some(sch.holder.defaults[p])
    ensures r.Some? && p !in sch.holder.defaults ==> r.value.dflt.None?
    ensures r.Some? && IsSchemaObj(Lookup(sch.fields, p)) && p in sch.holder.childNew ==>
      r.value.nested == Some((Get(Lookup(sch.fields, p), "pick"), sch.holder.childNew[p]))
  {
    var prop := Lookup(sch.fields, p);
    if !Truthy(prop) then None
    else
      Some(LPick(
        if p in sch.holder.defaults then Some(sch.holder.defaults[p]) else None,
        if p in sch.holder.validators then Some(sch.holder.validators[p]) else None,
        if IsSchemaObj(prop) then Some((Get(prop, "pick"), if p in sch.holder.childNew then sch.holder.childNew[p] else Undef)) else None))
  }

  /** A picked default thunk gives what `new()` puts at that key. */
  lemma LPickDefaultIsNew(sch: LSchema, p: string)
    requires LSchemaOk(sch) && Truthy(Lookup(sch.fields, p)) && p in sch.holder.defaults
    ensures LNewSpec(sch, Undef).Success?
    ensures p in LNewSpec(sch, Undef).value.vals
    ensures RunLDflt(sch.ctx, LPickSpec(sch, p).value.dflt.value) == LNewSpec(sch, Undef).value.vals[p]
  {
    LNewResult(sch, Undef);
  }
}
