/**
  The safety modes on a concrete `jetSchema` schema function: global
  validator objects for `isNum` (default `0`) and `isStr` (default `''`), and
  the schema `{ id: isNum, name: isStr }` under each safety mode.
 */
module SafetyExample {
  import opened Wrappers
  import opened JsValues
  import opened ErrorStuff
  import opened Env
  import opened Options
  import opened Fields
  import opened Globals
  import S = Setup
  import opened Schemas
  import opened Validation

  const IsNum: Value := Fn(1)
  const IsStr: Value := Fn(2)

  /** A host whose only functions are the two validators. */
  function ExampleApply(f: Value, a: Value): Value {
    if f == IsNum then Bool(a.Num?) else if f == IsStr then Bool(a.Str?) else Undef
  }

  function ExampleErrObj(kind: ErrKind, location: string, schemaId: Option<string>,
                         property: Option<string>, value: Option<Value>): ErrorItem
  {
    ErrorItem(property, value, Some(Message(kind)), Some(location), schemaId)
  }

  const ExampleHost: Host := Host(
    ExampleApply,
    (f, e) => EntryItem(e),
    v => false,
    (v: Value) => v.Str?, (v: Value) => v.Num?, (v: Value) => v.Bool?,
    v => false, v => v, Undef,
    v => v,
    v => (Undef, Undef),
    ExampleErrObj,
    v => v,
    (f, a) => None,
    k => Undef)

  const ExampleCtx: Ctx := Ctx(JetSchema, ExampleHost, v => v)

  /** `globals: [{ vf: isNum, default: 0 }, { vf: isStr, default: '' }]`. */
  const GlobalObjects: seq<Props> := [
    Props(["vf", "default"], map["vf" := IsNum, "default" := Num(0)]),
    Props(["vf", "default"], map["vf" := IsStr, "default" := Str("")])
  ]

  const FieldSpecs: Props := Props(["id", "name"], map["id" := IsNum, "name" := IsStr])

  function SafetyArg(safety: Option<Safety>): Option<OptionsArg> {
    if safety.None? then None else Some(OptionsArg(None, None, None, None, None, safety))
  }

  /** The schema the schema function returns for the given safety mode. */
  function ExampleSchema(safety: Safety): (sch: Schema)
    ensures SchemaOk(sch) && sch.opts.safety == safety
  {
    Schema(ExampleCtx, FullOptions(false, false, InitBool(true), None, safety), FieldSpecs,
           S.Holder(["id", "name"], map["id" := IdEntry, "name" := NameEntry]),
           map[])
  }

  const IdEntry: Entry := Entry(VfCall(IsNum), DConst(Num(0)), FmtSame, None)
  const NameEntry: Entry := Entry(VfCall(IsStr), DConst(Str("")), FmtSame, None)

  /** Destructuring `{ vf, default }` leaves `{ default }`. */
  lemma RemoveVf(f: Value, d: Value)
    ensures Remove(Props(["vf", "default"], map["vf" := f, "default" := d]), "vf")
      == Props(["default"], map["default" := d])
  {
    assert ["vf", "default"][1..] == ["default"];
    assert ["default"][1..] == [];
    assert map["vf" := f, "default" := d] - {"vf"} == map["default" := d];
  }

  lemma GlobalsRegistered()
    ensures GlobalsUpTo(GlobalObjects, 2) == ExampleGlobals
  {
    RemoveVf(IsNum, Num(0));
    RemoveVf(IsStr, Str(""));
    assert GlobalsUpTo(GlobalObjects, 1) == map[IsNum := Props(["default"], map["default" := Num(0)])];
  }

  /** The globals map `_setupGlobalsMap` builds from `GlobalObjects`. */
  const ExampleGlobals: GlobalsMap :=
    map[IsNum := Props(["default"], map["default" := Num(0)]),
        IsStr := Props(["default"], map["default" := Str("")])]

  /** A validator function with a registered global `default` resolves to that default. */
  lemma ResolvedGlobal(f: Value, d: Value)
    requires f == IsNum || f == IsStr
    requires d == Lookup(ExampleGlobals[f], "default")
    ensures ResolveJet(ExampleCtx, ExampleGlobals, f) == Resolved(Entry(VfCall(f), DConst(d), FmtSame, None), true, None)
  {
    assert f != Ctor(DateCtor) && Util.IsFn(f) && !IsValidatorObj(f);
    assert GlobalFor(ExampleGlobals, f) == Some(ExampleGlobals[f]);
    assert !Truthy(Lookup(ExampleGlobals[f], "transform"));
  }

  /** Both defaults pass their validators, so setup reports nothing for either key. */
  lemma DefaultsClean(id: Option<string>, key: string)
    ensures S.KeyErrors(ExampleCtx, id, key, Resolved(IdEntry, true, None)) == []
    ensures S.KeyErrors(ExampleCtx, id, key, Resolved(NameEntry, true, None)) == []
  {
    assert S.DefaultOk(ExampleCtx, Resolved(IdEntry, true, None));
    assert S.DefaultOk(ExampleCtx, Resolved(NameEntry, true, None));
    S.KeyErrorsShape(ExampleCtx, id, key, Resolved(IdEntry, true, None));
    S.KeyErrorsShape(ExampleCtx, id, key, Resolved(NameEntry, true, None));
  }

  /** Setting up the two example keys with a resolver and error function that accept both. */
  lemma TwoKeySetup(errs: S.KeyErrFn, res: Value -> Result<Resolved>)
    requires res(IsNum) == Success(Resolved(IdEntry, true, None))
    requires res(IsStr) == Success(Resolved(NameEntry, true, None))
    requires errs("id", Resolved(IdEntry, true, None)) == [] && errs("name", Resolved(NameEntry, true, None)) == []
    ensures S.SetupUpTo(errs, res, FieldSpecs, 2)
      == Success(S.Setup(S.Holder(["id", "name"], map["id" := IdEntry, "name" := NameEntry]), map[], []))
  {
    assert Lookup(FieldSpecs, FieldSpecs.keys[0]) == IsNum;
    S.SetupStep(errs, res, FieldSpecs, 0);
    assert S.AddKey(errs, S.Setup(S.Holder([], map[]), map[], []), "id", Resolved(IdEntry, true, None))
      == S.Setup(S.Holder(["id"], map["id" := IdEntry]), map[], []);
    assert Lookup(FieldSpecs, FieldSpecs.keys[1]) == IsStr;
    S.SetupStep(errs, res, FieldSpecs, 1);
    assert S.AddKey(errs, S.Setup(S.Holder(["id"], map["id" := IdEntry]), map[], []), "name", Resolved(NameEntry, true, None))
      == S.Setup(S.Holder(["id", "name"], map["id" := IdEntry, "name" := NameEntry]), map[], []);
  }

  /** Both example keys resolve to their globals' entries and raise no setup error. */
  lemma SetupExample(id: Option<string>)
    ensures S.SetupUpTo(S.KeyErrorsOf(ExampleCtx, id), Resolver(ExampleCtx, ExampleGlobals), FieldSpecs, 2)
      == Success(S.Setup(S.Holder(["id", "name"], map["id" := IdEntry, "name" := NameEntry]), map[], []))
  {
    var res := Resolver(ExampleCtx, ExampleGlobals);
    ResolvedGlobal(IsNum, Num(0));
    ResolvedGlobal(IsStr, Str(""));
    DefaultsClean(id, "id");
    DefaultsClean(id, "name");
    TwoKeySetup(S.KeyErrorsOf(ExampleCtx, id), res);
  }

  /**
    Creating the schema makes no `onError` call, takes each property's default
    from its global object, and gives the schema the requested safety mode
    (`'filter'` when none is given).
   */
  lemma CreatedExample(safety: Option<Safety>)
    ensures CreateSpec(ExampleCtx, GlobalsUpTo(GlobalObjects, 2), FieldSpecs, SafetyArg(safety))
      == Created([], Success(ExampleSchema(safety.GetOr(Filter))))
  {
    var opts := OptionsSpec(SafetyArg(safety));
    assert opts == FullOptions(false, false, InitBool(true), None, safety.GetOr(Filter));
    GlobalsRegistered();
    SetupExample(None);
  }

  const Joe: Value := Obj(Plain, Props(["id", "name"], map["id" := Num(1), "name" := Str("joe")]))
  const JoeFoo: Value :=
    Obj(Plain, Props(["id", "name", "foo"], map["id" := Num(1), "name" := Str("joe"), "foo" := Str("bar")]))
  const BadName: Value := Obj(Plain, Props(["id", "name"], map["id" := Num(1), "name" := Num(1234)]))

  /** Phase one on an object with a number `id` and a string `name` reports and changes nothing. */
  lemma CleanCheck(safety: Safety, location: string, own: Props)
    requires Lookup(own, "id").Num? && Lookup(own, "name").Str?
    ensures CheckUpTo(ExampleSchema(safety), location, own, 2) == RunState([], own)
  {
    var sch := ExampleSchema(safety);
    assert CheckUpTo(sch, location, own, 1) == RunState([], own);
  }

  /** A number `name` fails phase one. */
  lemma BadNameCheck(safety: Safety, location: string)
    ensures CheckUpTo(ExampleSchema(safety), location, BadName.own, 2).errors != []
  {
    var sch := ExampleSchema(safety);
    assert CheckUpTo(sch, location, BadName.own, 1) == RunState([], BadName.own);
    assert !RunVf(ExampleHost, VfCall(IsStr), Num(1234));
  }

  /** The extras pass over `{ id, name, foo }`. */
  lemma FooExtras(safety: Safety, location: string)
    requires safety != Pass
    ensures var sch := ExampleSchema(safety);
      ExtrasUpTo(sch, location, RunState([], JoeFoo.own), JoeFoo.own.keys, 3)
      == ExtraKey(sch, location, RunState([], JoeFoo.own), "foo")
  {
    var sch := ExampleSchema(safety);
    var st := RunState([], JoeFoo.own);
    assert ExtrasUpTo(sch, location, st, JoeFoo.own.keys, 1) == st;
    assert ExtrasUpTo(sch, location, st, JoeFoo.own.keys, 2) == st;
  }

  lemma RemoveFoo()
    ensures Remove(JoeFoo.own, "foo") == Joe.own
  {
    var s: seq<string> := ["id", "name", "foo"];
    assert s[1..] == ["name", "foo"];
    assert s[1..][1..] == ["foo"];
    assert RemoveKey(["foo"], "foo") == [];
    assert RemoveKey(["name", "foo"], "foo") == ["name"];
    assert RemoveKey(s, "foo") == ["id", "name"];
    assert JoeFoo.own.vals - {"foo"} == Joe.own.vals;
  }

  lemma FilterValidation()
    ensures ValidationSpec(ExampleSchema(Filter), ".test", JoeFoo.own) == RunState([], Joe.own)
  {
    CleanCheck(Filter, ".test", JoeFoo.own);
    FooExtras(Filter, ".test");
    RemoveFoo();
  }

  lemma BadNameFails(safety: Safety)
    ensures !TestSpec(ExampleSchema(safety), BadName).ok
  {
    var sch := ExampleSchema(safety);
    assert !FieldOk(ExampleHost, NameEntry, Num(1234));
    ValidationClean(sch, ".test", BadName.own);
  }

  /** `'filter'`: an extra key passes `test`, and `parse` strips it; a number `name` fails. */
  lemma FilterExample()
    ensures TestSpec(ExampleSchema(Filter), JoeFoo).ok
    ensures ParseSpec(ExampleSchema(Filter), JoeFoo) == ParseOutcome([], Joe)
    ensures !TestSpec(ExampleSchema(Filter), BadName).ok
  {
    FilterValidation();
    BadNameFails(Filter);
  }

  /** `'pass'`: `parse` keeps the extra key. */
  lemma PassExample()
    ensures TestSpec(ExampleSchema(Pass), JoeFoo).ok
    ensures ParseSpec(ExampleSchema(Pass), JoeFoo) == ParseOutcome([], JoeFoo)
    ensures !TestSpec(ExampleSchema(Pass), BadName).ok
  {
    CleanCheck(Pass, ".test", JoeFoo.own);
    BadNameFails(Pass);
  }

  /**
    `'strict'`: a clean object passes and parses unchanged; an extra key fails
    `test`, and with the default `onError` `parse` throws.
   */
  lemma StrictExample()
    ensures TestSpec(ExampleSchema(Strict), Joe).ok
    ensures ParseSpec(ExampleSchema(Strict), Joe) == ParseOutcome([], Joe)
    ensures !TestSpec(ExampleSchema(Strict), JoeFoo).ok
    ensures var calls := ParseSpec(ExampleSchema(Strict), JoeFoo).calls;
      |calls| == 1 && DefaultOnError(Some(calls[0])).Some?
  {
    var sch := ExampleSchema(Strict);
    CleanCheck(Strict, ".test", Joe.own);
    assert ExtrasUpTo(sch, ".test", RunState([], Joe.own), Joe.own.keys, 2) == RunState([], Joe.own);
    CleanCheck(Strict, ".test", JoeFoo.own);
    FooExtras(Strict, ".test");
    assert ValidationSpec(sch, ".test", JoeFoo.own).errors == [StrictError(sch, ".test", "foo")];
  }
}
