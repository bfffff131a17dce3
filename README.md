# jet-schema, modelled in Dafny

jet-schema builds object validators from a plain "schema object" whose keys
are field specs. A schema function turns that object and some options into a
schema with `new` (make an object from defaults plus a partial), `test`
(validate an object in place), `parse` (validate and return the same object)
and `pick` (one field's default, validator and nested schema). The
repository holds three engines:

- `initSchemaFn` (`src/initSchemaFn.ts`) recognises the constructors `Date`,
  `String`, `Number` and `Boolean`, enums, validator objects, validator
  functions and nested schemas. It reports failures through an `onError`
  callback.
- `jetSchema` (`src/jetSchema.ts`) adds global validator objects keyed by
  validator function. In this engine `'strict'` does not delete extra keys,
  and `parse` labels its errors `.test`.
- `jetLogger` (`src/jetLogger.ts`) is the earliest engine. It has
  `[default, validator]` fields and a defaults map keyed by validator
  function, and throws on every failure.

The error items, the default `onError` handler and the `JetSchemaError` class
(`src/error-stuff.ts`) are modelled too. So are the `typeof` checks, the enum
key/value extraction and the `transform` combinator (`src/util.ts`).

Modules:

- `JsValues` covers JavaScript values. Objects keep their own keys in
  insertion order (`Props`). `JsObject` is a caller's object that `test` and
  `parse` change in place.
- `Env` holds the `Host`: everything the engines call but do not define.
- `ErrorStuff`, `Util` and `Options` cover error items, the helpers and
  `_processOptions`.
- `Fields` and `Globals` resolve one field spec into a validator-holder
  entry: `Fields` for `initSchemaFn`, `Globals` (with the globals map) for
  `jetSchema`.
- `Setup` is `_setupAllVldtrsHolder`. It is shared by both engines, with a
  version tag for what differs.
- `Schemas` holds creation, `new` and `pick`.
- `Validation` holds `_setupRunValidations`, `test` and `parse`.
- `JetLogger` holds the whole of `jetLogger.ts`.
- `SafetyExample` is the safety-mode scenario of `test/index.test.ts`, stated
  as lemmas about a concrete schema.

Each loop of the source is a method. Its `ensures` ties the result to a
specification function over the first `n` iterations (`SetupUpTo`,
`OverlayUpTo`, `CheckUpTo`, `LOverlayUpTo`, …). Lemmas then prove what the
source promises about those functions. Caller-supplied closures (validators,
default thunks, `formatError`, transforms) are first-order descriptors
interpreted against the `Host`. Each `onError` call is recorded in a returned
sequence rather than performed.

## Model

| member | source | states |
|---|---|---|
| `ErrorStuff.ErrItem` | src/error-stuff.ts:50-74 | `property`, `message`, `location` and `schemaId` are set exactly when their argument is truthy (given and non-empty), and then to that argument; `value` is set exactly when a fifth argument was passed, whatever it is |
| `ErrorStuff.SetupErrItem` | src/error-stuff.ts:56-73 | the item built by conditional field assignment equals `ErrItem` of the same arguments |
| `ErrorStuff.DefaultOnError` | src/error-stuff.ts:41-45 | throws exactly when the argument is truthy and not an empty list, and then throws with that argument |
| `ErrorStuff.SetupErrorString` | src/error-stuff.ts:90-100 | a string is returned unchanged; a one-element list is stringified by its sole element; an item or any other list is stringified whole |
| `ErrorStuff.CopyErrArg` | src/error-stuff.ts:102-110 | the copy equals the original as a value and keeps a list's length |
| `ErrorStuff.JetSchemaError.constructor` | src/error-stuff.ts:84-88 | the message is the fixed prefix followed by `SetupErrorString` of the argument; the kept argument equals the one given |
| `Util.IsUndef` | src/util.ts:18-20 | true exactly for `undefined` |
| `Util.IsNum` | src/util.ts:25-27 | true exactly for numbers |
| `Util.IsStr` | src/util.ts:32-34 | true exactly for strings |
| `Util.IsObj` | src/util.ts:39-41 | true exactly for objects (arrays and dates included), false for `null` |
| `Util.IsArr` | src/util.ts:46-48 | true exactly for arrays, each of which is an object |
| `Util.IsNonArrObj` | src/util.ts:53-57 | true exactly for `null` and for objects that are not arrays |
| `Util.IsFn` | src/util.ts:89-91 | true exactly for functions, the global constructors included |
| `Util.EnumKeysUpTo` | src/util.ts:65-70 | the accumulator after `n` keys has at most `n` elements, each the value of one of those keys |
| `Util.GetEnumKeys` | src/util.ts:62-73 | the reduce loop's result equals `EnumKeysOf`: it throws for a non-`isNonArrObj` argument and for `null` (which `Object.keys` rejects); otherwise it folds over the keys |
| `Util.EnumVals` | src/util.ts:78-84 | throws for any argument failing `isNonArrObj` and for `null`; otherwise it maps each collected key `k` to `arg[k]`, with as many values as collected keys |
| `Util.StringEnumKeys` | src/util.ts:65-70 | on a string enum (every member's value is its name) the fold collects every member once, in declaration order |
| `Util.StringEnumVals` | src/util.ts:78-84 | a string enum's values are its members in declaration order |
| `Util.StatusEnumKeys` | src/util.ts:65-70 | on a compiled numeric enum `{0:'Basic',1:'Mid',Basic:0,Mid:1}` the fold collects `['Basic','Mid']` |
| `Util.NumericEnumVals` | src/util.ts:80-82 | the values of that numeric enum are `[0, 1]` |
| `Util.Transform` | src/util.ts:114-125 | `undefined` skips `f`; any other argument is validated as `f(arg)`; the callback value is exactly what the validator saw |
| `JsValues.Put` | src/initSchemaFn.ts:590 | a property write sets that key to the new value and no other; an existing key keeps its place in the key order; the key set grows by that key alone, and the object stays well formed |
| `JsValues.Remove` | src/initSchemaFn.ts:609 | `Reflect.deleteProperty` removes exactly that key and keeps the object well formed |
| `JsValues.JsObject.Set` | src/jetSchema.ts:623 | writing into the caller's object changes its properties as `Put` does and nothing else |
| `JsValues.JsObject.Delete` | src/jetSchema.ts:641 | deleting from the caller's object changes its properties as `Remove` does and nothing else |
| `Options.OptionsSpec` | src/initSchemaFn.ts:540-571 | no options give `optional=false, nullable=false, init=true, safety='filter'`; `init` and `safety` overwrite the defaults only when given, `id` only when non-empty; a defined `nullish` sets both `optional` and `nullable` |
| `Options.ProcessOptions` | src/jetSchema.ts:573-604 | the step-by-step overwrites give exactly `OptionsSpec` |
| `Options.InitCheckIgnoresNullable` | src/initSchemaFn.ts:245-248 | the creation-time `init` check does not depend on `nullable`, and `init: null` passes it |
| `Fields.ApplyTr` | src/initSchemaFn.ts:588-591 | without a transform, a key's value is validated as it is |
| `Fields.NestedEntry` | src/initSchemaFn.ts:358-369 | a nested schema validates with `child.test` and registers `child.new`; its default is `child.new()` for `init === true`, `null` for `init === null`, and `undefined` otherwise |
| `Fields.Classify` | src/initSchemaFn.ts:313-375 | the first matching branch wins, in the order `Date`, `String`, `Number`, `Boolean`, enum, validator object, function, nested schema, error; stated as an iff per branch |
| `Fields.ResolveInit` | src/initSchemaFn.ts:312-375 | resolving fails only for an enum whose `getEnumVals` throws; a property is recognised exactly when some branch matches; it has a child `new` exactly when it is a nested schema |
| `Fields.ConstructorMarkers` | src/initSchemaFn.ts:314-329 | `String`, `Number` and `Boolean` use the primitive checks and default to `''`, `0` and `false`; `Date` uses `isDate`, transforms with `new Date` and defaults to the current time |
| `Fields.ValidatorObjectEntry` | src/initSchemaFn.ts:337-353 | a validator object's `vf` is the validator; a function default is called on every use, any other default is cloned once at setup, and a missing one yields `undefined`; transform and `formatError` are taken exactly when truthy |
| `Fields.EnumEntry` | src/initSchemaFn.ts:331-335 | an enum validates by membership in its values and defaults to the first value, or `undefined` when there is none |
| `Fields.UnrecognisedFailsDefault` | src/initSchemaFn.ts:306-310 | an unrecognised property keeps the placeholder entry, whose `undefined` default fails its `!!arg` check |
| `Globals.SetupGlobalsMap` | src/jetSchema.ts:561-568 | the loop builds exactly the map of each global object's `vf` to the rest of that object |
| `Globals.GlobalsDomain` | src/jetSchema.ts:563-566 | the map has an entry for a function exactly when some global object names it as `vf` |
| `Globals.LastGlobalWins` | src/jetSchema.ts:564-565 | of several global objects with the same `vf`, the last one is kept, without its `vf` key |
| `Globals.ResolveJet` | src/jetSchema.ts:321-396 | a property is recognised exactly when it is `Date`, a function, a validator object, a nested schema or an enum; only a nested schema that is neither function nor validator object has a child `new` |
| `Globals.DefaultPrecedence` | src/jetSchema.ts:335-370 | a local `default` key wins, then a global `default`, else none; a defined default is cloned once and never called |
| `Globals.TransformPrecedence` | src/jetSchema.ts:342-359 | a truthy local transform wins, then a truthy global transform, else none |
| `Globals.GlobalFormatErrorUnused` | src/jetSchema.ts:360-362 | the globals never change a property's `formatError` or its validator |
| `Globals.PrimitiveConstructorsAreFunctions` | src/jetSchema.ts:326-350 | `String`, `Number` and `Boolean` without a global object are plain validator functions with an `undefined` default |
| `Setup.KeyErrorsShape` | src/initSchemaFn.ts:370-383 | a key contributes no error exactly when it is recognised and its default passes; otherwise an `Init` item comes first and a `DefaultVal` item (carrying the default, passed through `formatError`) comes last |
| `Setup.FailureSticks` | src/initSchemaFn.ts:331-332 | once resolving a key throws, setup ends with that exception |
| `Setup.SetupCalls` | src/initSchemaFn.ts:387-390 | setup calls `onError` at most once, exactly when there are errors, with all of them |
| `Setup.SetupStep` | src/initSchemaFn.ts:304-386 | one loop iteration: a throwing key ends setup with its exception; any other key extends the state by its entry, child `new` and errors |
| `Setup.AddKeyTo` | src/initSchemaFn.ts:368-385 | the loop body records the key's entry, its child `new` and its errors as `AddKey` does |
| `Setup.SetupAllVldtrsHolder` | src/initSchemaFn.ts:291-396 | the loop's result is `SetupUpTo` over all keys; on success it makes exactly the `onError` calls of `SetupCalls`, and none when it throws |
| `Setup.SetupFailsIff` | src/initSchemaFn.ts:304-386 | setup throws exactly when resolving some key throws |
| `Setup.SetupResolvedAll` | src/jetSchema.ts:312-407 | a setup that succeeded resolved every key |
| `Setup.SetupHolder` | src/jetSchema.ts:312-407 | after setup the holder lists exactly the schema keys in order, each with its resolved entry; child `new`s exist exactly for the nested-schema keys |
| `Setup.SetupClean` | src/jetSchema.ts:397-411 | setup reports no error exactly when every key is recognised and its default passes its validator |
| `Schemas.InitCalls` | src/initSchemaFn.ts:245-248 | creation reports one `Init` item at `.schema` exactly when the schema is not optional and `init` is `false` |
| `Schemas.CreateSchema` | src/initSchemaFn.ts:241-253 | the schema function processes the options, runs the `init` check, then sets up the holder; its calls and schema are `CreateSpec` |
| `Schemas.CreatedSchema` | src/jetSchema.ts:247-260 | a created schema's holder has one entry per field spec, in the schema object's order, each the resolution of its spec; its options are `OptionsSpec`; creation makes at most two `onError` calls |
| `Schemas.New` | src/initSchemaFn.ts:415-458 | the two loops of `new` give exactly `NewSpec` |
| `Schemas.DefaultsContent` | src/initSchemaFn.ts:425-430 | the defaults record holds exactly the keys whose default is not `undefined`, each with its default |
| `Schemas.OverlayContent` | src/initSchemaFn.ts:432-450 | overlaying stores `clone(transform(v))` for each declared partial key and keeps every other key as it was |
| `Schemas.OverlayErrors` | src/initSchemaFn.ts:443-449 | overlaying reports nothing exactly when every declared partial key's transformed value passes its validator |
| `Schemas.NewResult` | src/jetSchema.ts:442-478 | `new(partial)` has the non-`undefined` defaults and each declared partial key as `clone(transform(v))`; undeclared partial keys are ignored; a failing value is still stored; `onError` is called at most once, exactly when some declared key fails |
| `Schemas.Pick` | src/initSchemaFn.ts:258-281 | `pick` returns `undefined` exactly for a falsy field spec; otherwise it gives the holder's default, and nested members exactly for a nested-schema field |
| `Schemas.PickTestIsFieldCheck` | src/jetSchema.ts:270-276 | a picked field's `test` accepts exactly what the schema's own check of that key accepts, the transform applied |
| `Validation.RunValidations` | src/initSchemaFn.ts:576-615 | the pass writes into the argument exactly what `ValidationSpec` gives, returns its errors, and changes nothing else |
| `Validation.CheckKeyLookup` | src/initSchemaFn.ts:586-591 | one step of phase one writes only the visited key, and writes its transformed value |
| `Validation.CheckKeyVals` | src/initSchemaFn.ts:588-591 | one step of phase one adds a property only for a transformed key |
| `Validation.CheckKeyErrors` | src/initSchemaFn.ts:592-597 | one step of phase one adds an error exactly when the key's value fails its check |
| `Validation.CheckLookupAt` | src/initSchemaFn.ts:585-598 | phase one leaves every key it has not yet visited unchanged |
| `Validation.CheckUntouched` | src/initSchemaFn.ts:585-598 | phase one keeps the argument well formed and adds only visited keys that transform |
| `Validation.CheckWritten` | src/jetSchema.ts:618-624 | each visited holder key holds its transformed value (its original value when it has no transform) |
| `Validation.CheckErrors` | src/jetSchema.ts:618-631 | phase one reports nothing exactly when every visited key's original value passes its check |
| `Validation.CheckLocationFree` | src/jetSchema.ts:540-541 | the location only labels error items: what phase one writes, and whether it reports, do not depend on it |
| `Validation.Undeclared` | src/initSchemaFn.ts:601-604 | the undeclared keys are exactly the argument keys absent from the holder |
| `Validation.ExtrasOwn` | src/jetSchema.ts:633-644 | the extras pass deletes an undeclared key exactly when the engine's safety mode deletes (`initSchemaFn`: `'filter'` and `'strict'`; `jetSchema`: `'filter'` only) and keeps every other property |
| `Validation.ExtrasErrors` | src/initSchemaFn.ts:600-611 | under `'strict'` the extras pass adds one `StrictMode` item per undeclared key, in key order, after the earlier errors; under other modes it adds nothing |
| `Validation.PhaseOneResult` | src/initSchemaFn.ts:585-598 | after phase one each declared key holds its transformed value and every undeclared key is as it was |
| `Validation.ValidationResult` | src/initSchemaFn.ts:583-614 | after the pass each declared key holds its transformed value; an undeclared key stays, unchanged, unless the safety mode deletes it |
| `Validation.PhaseOneClean` | src/initSchemaFn.ts:585-598 | phase one reports nothing exactly when every declared key's original value passes its check |
| `Validation.StrictClean` | src/jetSchema.ts:637-639 | under `'strict'` the extras pass adds nothing exactly when every key of the argument is declared |
| `Validation.ValidationClean` | src/jetSchema.ts:616-647 | the pass reports nothing exactly when every declared key passes and, under `'strict'`, no undeclared key is present |
| `Validation.TestSpec` | src/initSchemaFn.ts:475-505 | `undefined` gives `optional` and `null` gives `nullable`, with one error call exactly when false; another non-object gives `false` without a call; an object passes exactly when no error is reported, with at most one call, and keeps its kind |
| `Validation.Test` | src/jetSchema.ts:484-527 | `test` returns, reports and leaves in its argument exactly what `TestSpec` gives |
| `Validation.TestPassesIff` | src/initSchemaFn.ts:497-504 | on an object, `test` passes exactly when every declared key's value passes its check and, under `'strict'`, no undeclared key is present |
| `Validation.ParseSpec` | src/initSchemaFn.ts:522-534 | a non-object is returned unchanged after one `NotAnObj` call; an object gets at most one call and keeps its kind |
| `Validation.Parse` | src/jetSchema.ts:532-556 | `parse` returns the very argument it was given, reporting and mutating as `ParseSpec` gives |
| `Validation.ParseMatchesTest` | src/jetSchema.ts:540-541 | `parse` leaves an object exactly as `test` does and reports exactly when `test` fails; for `jetSchema`, whose `parse` uses `.test`, the calls are identical |
| `Validation.NewDefaultsPassTest` | src/initSchemaFn.ts:421-430 | an object `new()` builds from defaults alone passes `test` exactly when every declared key's default passes its check after its transform |
| `Validation.TestSafetyEffect` | src/initSchemaFn.ts:599-611 | after `test`, under `'filter'` (and `'strict'` for `initSchemaFn`) only declared keys remain; under `'pass'` (and `'strict'` for `jetSchema`) undeclared keys are untouched; declared keys are never removed |
| `JetLogger.DefaultValsHas` | src/jetLogger.ts:153 | the defaults map has a function exactly when some pair names it |
| `JetLogger.DefaultValsLastWins` | src/jetLogger.ts:152-153 | a function maps to the value of the last pair naming it |
| `JetLogger.Clone` | src/jetLogger.ts:345-353 | a primitive is returned as it is; a `Date` becomes a new `Date` of the same time |
| `JetLogger.JetLoggerCtx` | src/jetLogger.ts:152-160 | a truthy `cloneFnArg` is the clone function, otherwise `_clone`; no pairs give an empty defaults map |
| `JetLogger.CallVf` | src/jetLogger.ts:258-260 | calling a validator throws a `TypeError` exactly when it is not a function |
| `JetLogger.FieldOfBranches` | src/jetLogger.ts:217-256 | only objects and functions get a validator; only a schema gets a child `new`; a function with no defined entry in the defaults map, or a spec that is neither object, function nor `null`, gets no default; an array gives element 1 as validator and a clone of element 0 as default; `Date` comes first |
| `JetLogger.FieldCheck` | src/jetLogger.ts:257-260 | the check as written, on the default thunk (a fresh closure): it never passes a field by returning `true`; a field without a validator throws; `isDate` and the enum closure always reject the thunk, so those fields pass; a nested schema's `test` throws the not-an-object error; a caller's validator makes setup throw `Default value was missing or invalid` exactly when it accepts the thunk |
| `JetLogger.EnumFieldPasses` | src/jetLogger.ts:239-242 | an enum field never throws at setup, since a fresh closure is `===` to no enum value |
| `JetLogger.NestedFieldThrows` | src/jetLogger.ts:228-237 | a nested-schema field whose `test` is a function always throws the not-an-object error at setup |
| `JetLogger.NestedSetupFails` | src/jetLogger.ts:217-261 | a schema object with any nested-schema field cannot be set up |
| `JetLogger.SetupDefaultsAndValidators` | src/jetLogger.ts:205-268 | the loop's result is `LSetupUpTo` over all keys, or the exception of the first failing key |
| `JetLogger.CheckedCallable` | src/jetLogger.ts:258 | a field that passes the check has a validator that is a function |
| `JetLogger.LFailureSticks` | src/jetLogger.ts:258-260 | once a key throws, setup ends with that exception |
| `JetLogger.LSetupOk` | src/jetLogger.ts:217-261 | setup succeeds exactly when every field passes the check |
| `JetLogger.LSetupResult` | src/jetLogger.ts:205-268 | setup succeeds exactly when every field passes; then every key has its validator, in the schema object's order, and a default exactly when its spec gives one |
| `JetLogger.SettingsOf` | src/jetLogger.ts:168 | with no settings given they are `false`, `false`, `true` |
| `JetLogger.Given` | src/jetLogger.ts:168 | a destructured setting is its default when absent or `undefined`, and the given value otherwise |
| `JetLogger.CreateLogger` | src/jetLogger.ts:163-199 | the schema function runs setup before the guard; its result is `CreateLoggerSpec` |
| `JetLogger.CreatedLogger` | src/jetLogger.ts:168-175 | the schema function succeeds exactly when setup does and the settings are not all falsy; then the holder lists every key; with setup passing and all settings falsy it throws the parent message |
| `JetLogger.DefaultSettingsNeedNoParent` | src/jetLogger.ts:173-175 | with no settings the guard passes, since `defaultVal` defaults to `true` |
| `JetLogger.LNew` | src/jetLogger.ts:280-307 | the two loops of `new` give exactly `LNewSpec`, throwing at the first undeclared or rejected key |
| `JetLogger.LDefaultsAt` | src/jetLogger.ts:288-290 | a key is in the defaults object exactly when it has a default thunk, holding that thunk's value |
| `JetLogger.LDefaultsContent` | src/jetLogger.ts:287-290 | the defaults object holds exactly the keys with a default thunk, each with its value |
| `JetLogger.LOverlayFailureSticks` | src/jetLogger.ts:300-302 | once a partial key throws, `new` ends with that exception |
| `JetLogger.LOverlayOk` | src/jetLogger.ts:292-303 | overlaying succeeds exactly when every partial key is declared and accepted by its validator |
| `JetLogger.LOverlayContent` | src/jetLogger.ts:294-299 | when overlaying succeeds, each partial key holds its `transformedVal` or its clone, and every other key keeps its default |
| `JetLogger.LNewResult` | src/jetLogger.ts:285-306 | `new(partial)` throws exactly when some partial key is undeclared or rejected; otherwise it has every default key and partial key, partial keys stored as `transformedVal` or clone, other keys with their defaults |
| `JetLogger.ChildTestRejectsFunctions` | src/jetLogger.ts:325-327 | a jetLogger schema's `test` throws the not-an-object error for any function argument, the rule `FieldCheck` applies to a nested schema's `test` |
| `JetLogger.LTestSpec` | src/jetLogger.ts:317-339 | `test` never returns `false`; `undefined` when optional and `null` when nullable give `true`; any other non-object throws the not-an-object message and is left as it was |
| `JetLogger.LCheckNeverFalse` | src/jetLogger.ts:331-333 | the field loop never ends with `false`: a failing field throws |
| `JetLogger.LTest` | src/jetLogger.ts:312-340 | `test` returns, throws and writes back into its argument exactly as `LTestSpec` gives |
| `JetLogger.LCheckFailureSticks` | src/jetLogger.ts:331-333 | once a field throws, the loop ends with that exception |
| `JetLogger.LCheckOk` | src/jetLogger.ts:328-337 | the loop passes exactly when every validator accepts its key's original value |
| `JetLogger.LCheckContent` | src/jetLogger.ts:334-336 | when the loop passes, each key whose validator leaves a `transformedVal` holds it and every other property is unchanged |
| `JetLogger.LTestIff` | src/jetLogger.ts:325-338 | on an object, `test` returns `true` exactly when every validator accepts its key's value, and throws otherwise |
| `JetLogger.LPickSpec` | src/jetLogger.ts:180-192 | `pick` returns `undefined` exactly for a falsy field spec; otherwise its `default` is the key's default thunk (absent when none), its `test` the key's validator, and nested members exist exactly for a schema field, being the child's `pick` and the registered child `new` |
| `JetLogger.LPickDefaultIsNew` | src/jetLogger.ts:184 | a picked default thunk gives exactly what `new()` puts at that key |
| `SafetyExample.GlobalsRegistered` | test/index.test.ts:180-186 | the globals `{vf: isNum, default: 0}` and `{vf: isStr, default: ''}` register as `isNum ↦ {default: 0}`, `isStr ↦ {default: ''}` |
| `SafetyExample.ResolvedGlobal` | test/index.test.ts:189-192 | `isNum` and `isStr` as field specs resolve to their globals' defaults |
| `SafetyExample.SetupExample` | test/index.test.ts:189-192 | setting up `{ id: isNum, name: isStr }` resolves both keys, in order, with no setup error |
| `SafetyExample.CreatedExample` | test/index.test.ts:201-204 | creating the schema makes no `onError` call and gives it the requested safety mode, `'filter'` when none is given |
| `SafetyExample.FilterExample` | test/index.test.ts:188-210 | under `'filter'`, `test({id,name,foo})` passes, `parse` of it yields `{id,name}`, and `test({id:1,name:1234})` fails |
| `SafetyExample.PassExample` | test/index.test.ts:212-222 | under `'pass'` the extra key passes `test` and `parse` keeps it; a number `name` fails |
| `SafetyExample.StrictExample` | test/index.test.ts:224-248 | under `'strict'` a clean object passes and parses unchanged; an extra key fails `test`; with the default `onError`, `parse` of it throws |

## Left out

- Type-level machinery (the `TStaticObj`, `InferTypes`, `TSchemaOptions`, … types) has no runtime content and is not modelled.
- `isDate`/`isValidDate` depend on host `Date` parsing and `NaN`. They are the `Host` callbacks `newDate` and `isValidDate`, and `isDate` is `transform(newDate, isValidDate)`.
- `structuredClone`, the caller's `cloneFn`, `defaultCloneFn` and `JSON.stringify` are foreign calls. They are abstract functions (`Host.structuredClone`, `Ctx.clone`, `Host.defaultClone`, the `stringify` parameter).
- `isEnum`, `processEnum`, `isString`/`isNumber`/`isBoolean`, `Errors` and `getErrObj` are imported from files that are not part of this model. They are `Host` callbacks, so `jetSchema`'s error items and message texts are whatever `getErrObj` returns.
- Caller-supplied validators, defaults, transforms, `formatError` functions and a nested schema's `test`/`new` are called through `Host.apply`/`Host.format`. Their own exceptions are not modelled: every caller function returns.
- Fields.NestedEntry, Globals.ResolveJet and JetLogger.FieldOf: a nested schema's `test` and `new` are host calls that return a value and have no effect. In the source the child's `test` is the engine's own `test`. When the parent runs `test`, `parse` or `new`, the child therefore changes the nested object in place: it writes back transformed values (`src/initSchemaFn.ts:590`, `src/jetSchema.ts:623`) and deletes extra keys (`src/initSchemaFn.ts:609`, `src/jetSchema.ts:640-642`). It also makes its own `onError` calls. Neither the in-place changes to a nested object nor the child's `onError` calls are captured.
- `onError` is recorded as the sequence of its calls, as though each returns. A throwing `onError` (such as `defaultOnError`) would stop the operation mid-way; the model says which call throws (`DefaultOnError`) but not that the later calls are skipped.
- Numbers are integers. Fractions, `NaN` and `-0` are not modelled.
- `for..in` visits an object's own keys in insertion order. TypeScript's integer-like key ordering, inherited enumerable keys and getters are not modelled.
- Holder lookups see only the holder's own keys. In the source the holders (`allVldtrsHolder`, `defaults`, `validators`) are plain `{}`, so `key in holder` and `holder[key]` also find `Object.prototype` names such as `toString` and `constructor`. The model therefore differs from the source for such argument or partial keys. Validation.Undeclared and Validation.ExtrasOwn treat such a key as undeclared, so `'filter'` deletes it and `'strict'` reports it; the source keeps it and does not report it. Schemas.NewResult ignores it, where the source stores `clone(v)` and then throws a `TypeError` calling the inherited entry's `vf`. JetLogger.LNewResult throws `NotAFunction` for it, where `Object.prototype.toString` accepts and the key is stored.
- A `partial` that is not an object is treated as `{}` by `new` (Schemas.PartialProps, JetLogger.LNewSpec). A string partial's `for..in` would visit its indices `"0"`, `"1"`, …, each an undeclared key; in `jetLogger` that throws a `TypeError`.
- Values are compared structurally, so two objects with equal contents are equal. Function identity is the `Fn` id. A copy's distinct identity (`CopyErrArg`, `schema()`'s spread copy) is not visible.
- The current time (`new Date()`) is the `Host.now` parameter. A `Date` instance carries its time; `Clone` of a `Date` keeps only that time.
- JetLogger.Clone: a non-`Date` object is given to `structuredClone`, which is abstract, so nothing is stated about its result.
- Schemas.Pick: requires the key to be declared, because the source reads `transform` from a missing holder entry and throws a `TypeError` for an undeclared key.
- The `isUndef(optionsF.init)` half of the creation-time check cannot hold after `_processOptions`, which never leaves `init` undefined, so it is not modelled.
- JetLogger.FieldCheck: the default check at `src/jetLogger.ts:258` is modelled as written. It calls the validator on the default thunk itself rather than on its value, and throws when the validator accepts it. For a caller's validator the thunk's function object is `Host.thunkValue`, unconstrained, so what that validator makes of it is left open. A `Date` field's thunk is rejected without consulting the host's `isValidDate`. No property about default validity is claimed.
- In `jetLogger`, calling a missing validator or testing an undeclared `new` key throws a `TypeError`. It is modelled by fixed message texts (`NotAFunction`).
- `jetSchema`'s global `formatError` is never taken, because the holder's `formatError` is always set (`Globals.GlobalFormatErrorUnused`).
- `getErrors` of `JetSchemaError` is the plain read `GetErrors` and has no contract of its own; the constructor's contract states what it returns.
- Logging, console scripts, the bundler config and the minified-bundle tests are I/O or packaging and are not modelled.
