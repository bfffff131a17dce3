/**
  The `jetSchema` engine's global validator objects and its resolver, which
  merges a property's local validator object with the global one registered
  for the same validator function.
 */
module Globals {
  import opened Wrappers
  import opened JsValues
  import opened Fields
  import Util

  /** `TGlobalsMap`: a validator function to the rest of its global validator object. */
  type GlobalsMap = map<Value, Props>

  /** The map after the first `n` global objects: each one is keyed by its `vf`, the rest as value. */
  function GlobalsUpTo(globals: seq<Props>, n: nat): GlobalsMap
    requires n <= |globals|
  {
    if n == 0 then map[]
    else GlobalsUpTo(globals, n - 1)[Lookup(globals[n - 1], "vf") := Remove(globals[n - 1], "vf")]
  }

  /** `_setupGlobalsMap`: destructures each object into `vf` and the rest and sets the pair. */
  method SetupGlobalsMap(globals: seq<Props>) returns (m: GlobalsMap)
    ensures m == GlobalsUpTo(globals, |globals|)
  {
    m := map[];
    for i := 0 to |globals|
      invariant m == GlobalsUpTo(globals, i)
    {
      var obj := globals[i];
      m := m[Lookup(obj, "vf") := Remove(obj, "vf")];
    }
  }

  /** The map has an entry for exactly the validator functions some global object names. */
  lemma {:induction false} GlobalsDomain(globals: seq<Props>, n: nat, f: Value)
    requires n <= |globals|
    ensures f in GlobalsUpTo(globals, n) <==> exists i :: 0 <= i < n && Lookup(globals[i], "vf") == f
  {
    if n > 0 {
      GlobalsDomain(globals, n - 1, f);
    }
  }

  /** Of several global objects for the same validator, the last one wins; its `vf` is not kept. */
  lemma {:induction false} LastGlobalWins(globals: seq<Props>, n: nat, i: nat)
    requires i < n <= |globals|
    requires forall j :: i < j < n ==> Lookup(globals[j], "vf") != Lookup(globals[i], "vf")
    ensures Lookup(globals[i], "vf") in GlobalsUpTo(globals, n)
    ensures GlobalsUpTo(globals, n)[Lookup(globals[i], "vf")] == Remove(globals[i], "vf")
    ensures "vf" !in GlobalsUpTo(globals, n)[Lookup(globals[i], "vf")].vals
  {
    if i < n - 1 {
      LastGlobalWins(globals, n - 1, i);
    }
  }

  /** The global object for a validator function, if one is registered. */
  function GlobalFor(globals: GlobalsMap, vf: Value): Option<Props> {
    if vf in globals then Some(globals[vf]) else None
  }

  /**
    How `jetSchema`'s `_setupAllVldtrsHolder` resolves one schema property.  In
    the validator branch a local `default` key, `transform` or `formatError`
    takes precedence over the global object's; every default is a value
    cloned once, never called.
   */
  function ResolveJet(ctx: Ctx, globals: GlobalsMap, spec: Value): (r: Resolved)
    ensures r.recognised <==>
      spec == Ctor(DateCtor) || Util.IsFn(spec) || IsValidatorObj(spec) || IsSchemaObj(spec) || ctx.host.isEnum(spec)
    ensures r.childNew.Some? <==> !Util.IsFn(spec) && !IsValidatorObj(spec) && IsSchemaObj(spec)
  {
    if spec == Ctor(DateCtor) then
      Resolved(Entry(VfDate, DNow, FmtSame, Some(TrDate)), true, None)
    else if Util.IsFn(spec) || IsValidatorObj(spec) then
      var local := IsValidatorObj(spec);
      var vdlrFn := if local then Get(spec, "vf") else spec;
      var hasLocalDefault := local && Has(spec, "default");
      var localTr := if local && Truthy(Get(spec, "transform")) then Some(TrCall(Get(spec, "transform"))) else None;
      var fmt := if local && Truthy(Get(spec, "formatError")) then FmtCall(Get(spec, "formatError")) else FmtSame;
      var g := GlobalFor(globals, vdlrFn);
      var defaultVal :=
        if !hasLocalDefault && g.Some? && "default" in g.value.vals then Lookup(g.value, "default")
        else if hasLocalDefault then Get(spec, "default")
        else Undef;
      var tr :=
        if localTr.None? && g.Some? && Truthy(Lookup(g.value, "transform")) then Some(TrCall(Lookup(g.value, "transform")))
        else localTr;
      // The holder's `formatError` is always a function (the identity
      // placeholder at least), so the global `formatError` is never taken.
      var dflt := if defaultVal != Undef then DConst(ctx.clone(defaultVal)) else DConst(Undef);
      Resolved(Entry(VfCall(vdlrFn), dflt, fmt, tr), true, None)
    else if IsSchemaObj(spec) then
      NestedEntry(spec)
    else if ctx.host.isEnum(spec) then
      var (dflt, vldr) := ctx.host.processEnum(spec);
      Resolved(Placeholder.(vf := VfCall(vldr), dflt := DClone(dflt)), true, None)
    else
      Resolved(Placeholder, false, None)
  }

  /** The default a validator-branch property ends up with: local key first, then global, then none. */
  lemma DefaultPrecedence(ctx: Ctx, globals: GlobalsMap, spec: Value)
    requires spec != Ctor(DateCtor) && (Util.IsFn(spec) || IsValidatorObj(spec))
    ensures var vdlrFn := if IsValidatorObj(spec) then Get(spec, "vf") else spec;
      var chosen :=
        if IsValidatorObj(spec) && Has(spec, "default") then Get(spec, "default")
        else if vdlrFn in globals && "default" in globals[vdlrFn].vals then globals[vdlrFn].vals["default"]
        else Undef;
      ResolveJet(ctx, globals, spec).entry.dflt == (if chosen == Undef then DConst(Undef) else DConst(ctx.clone(chosen)))
  {
  }

  /** The transform: a truthy local one, or else a truthy global one, or none. */
  lemma TransformPrecedence(ctx: Ctx, globals: GlobalsMap, spec: Value)
    requires spec != Ctor(DateCtor) && (Util.IsFn(spec) || IsValidatorObj(spec))
    ensures IsValidatorObj(spec) && Truthy(Get(spec, "transform")) ==>
      ResolveJet(ctx, globals, spec).entry.transform == Some(TrCall(Get(spec, "transform")))
    ensures !(IsValidatorObj(spec) && Truthy(Get(spec, "transform"))) ==>
      var vdlrFn := if IsValidatorObj(spec) then Get(spec, "vf") else spec;
      ResolveJet(ctx, globals, spec).entry.transform ==
        (if vdlrFn in globals && Truthy(Lookup(globals[vdlrFn], "transform"))
         then Some(TrCall(Lookup(globals[vdlrFn], "transform"))) else None)
  {
  }

  /** The global objects never decide a property's `formatError` or its validator. */
  lemma GlobalFormatErrorUnused(ctx: Ctx, globals: GlobalsMap, spec: Value)
    ensures ResolveJet(ctx, globals, spec).entry.fmt == ResolveJet(ctx, map[], spec).entry.fmt
    ensures ResolveJet(ctx, globals, spec).entry.vf == ResolveJet(ctx, map[], spec).entry.vf
  {
  }

  /**
    The constructors `String`, `Number` and `Boolean` are ordinary functions to
    this resolver: they are called as validators and give no default.
   */
  lemma PrimitiveConstructorsAreFunctions(ctx: Ctx, globals: GlobalsMap, c: CtorKind)
    requires c != DateCtor && Ctor(c) !in globals
    ensures ResolveJet(ctx, globals, Ctor(c)) == Resolved(Placeholder.(vf := VfCall(Ctor(c))), true, None)
  {
  }
}
