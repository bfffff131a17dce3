/**
  A schema as the schema function returns it: creation (options, the `init`
  check, setup), `new` and `pick`.
 */
module Schemas {
  import opened Wrappers
  import opened JsValues
  import opened ErrorStuff
  import opened Options
  import opened Fields
  import opened Globals
  import opened Setup

  /** The state the closures of a schema share. */
  datatype Schema = Schema(
    ctx: Ctx,
    opts: FullOptions,
    /** `schemaFnObjArg`, the object of field specs. */
    fields: Props,
    holder: Holder,
    childNew: map<string, Dflt>)

  predicate SchemaOk(sch: Schema) {
    HolderOk(sch.holder)
  }

  /** The engine's resolver as a function of the property alone. */
  function Resolver(ctx: Ctx, globals: GlobalsMap): Value -> Result<Resolved> {
    spec => Resolve(ctx, globals, spec)
  }

  /** The `onError` call of the creation-time `init` check. */
  function InitCalls(ctx: Ctx, opts: FullOptions): (calls: seq<ErrArg>)
    ensures |calls| <= 1
    ensures |calls| == 1 <==> !opts.optional && opts.init == InitBool(false)
    ensures calls != [] ==> calls[0] == ArgItem(MakeErr(ctx, Init, ".schema", opts.schemaId, None, None))
  {
    if InitIllegal(opts) then [ArgItem(MakeErr(ctx, Init, ".schema", opts.schemaId, None, None))] else []
  }

  /**
    The outcome of calling the schema function: the `onError` calls made (as
    though each returns) and the schema, or the exception setup threw.
   */
  datatype Created = Created(calls: seq<ErrArg>, schema: Result<Schema>)

  function CreateSpec(ctx: Ctx, globals: GlobalsMap, fields: Props, options: Option<OptionsArg>): Created {
    var opts := OptionsSpec(options);
    var initCalls := InitCalls(ctx, opts);
    match SetupUpTo(KeyErrorsOf(ctx, opts.schemaId), Resolver(ctx, globals), fields, |fields.keys|)
    case Failure(e) => Created(initCalls, Failure(e))
    case Success(s) =>
      Created(initCalls + SetupCalls(s), Success(Schema(ctx, opts, fields, s.holder, s.childNew)))
  }

  /** The schema function: process the options, run the `init` check, then set up the holder. */
  method CreateSchema(ctx: Ctx, globals: GlobalsMap, fields: Props, options: Option<OptionsArg>)
    returns (c: Created)
    ensures c == CreateSpec(ctx, globals, fields, options)
  {
    var opts := ProcessOptions(options);
    var calls: seq<ErrArg> := [];
    if !opts.optional && opts.init == InitBool(false) {
      var err := MakeErr(ctx, Init, ".schema", opts.schemaId, None, None);
      calls := calls + [ArgItem(err)];
    }
    var r, setupCalls := SetupAllVldtrsHolder(ctx, Resolver(ctx, globals), fields, opts.schemaId);
    if r.Failure? {
      return Created(calls, Failure(r.error));
    }
    calls := calls + setupCalls;
    c := Created(calls, Success(Schema(ctx, opts, fields, r.value.holder, r.value.childNew)));
  }

  /**
    A created schema's holder has one entry per field spec, in the schema
    object's order, each the resolution of its spec; creation makes at most
    two `onError` calls.
   */
  lemma CreatedSchema(ctx: Ctx, globals: GlobalsMap, fields: Props, options: Option<OptionsArg>)
    requires Distinct(fields.keys)
    ensures var c := CreateSpec(ctx, globals, fields, options);
      |c.calls| <= 2
      && (c.schema.Success? ==>
            SchemaOk(c.schema.value)
            && c.schema.value.holder.order == fields.keys
            && c.schema.value.opts == OptionsSpec(options)
            && forall k :: k in fields.keys ==>
                 Resolve(ctx, globals, Lookup(fields, k)).Success?
                 && c.schema.value.holder.entries[k] == Resolve(ctx, globals, Lookup(fields, k)).value.entry)
  {
    var opts := OptionsSpec(options);
    var n := |fields.keys|;
    var r := SetupUpTo(KeyErrorsOf(ctx, opts.schemaId), Resolver(ctx, globals), fields, n);
    if r.Success? {
      SetupHolder(KeyErrorsOf(ctx, opts.schemaId), Resolver(ctx, globals), fields, n);
      assert fields.keys[..n] == fields.keys;
      forall k | k in fields.keys
        ensures Resolve(ctx, globals, Lookup(fields, k)).Success?
        ensures r.value.holder.entries[k] == Resolve(ctx, globals, Lookup(fields, k)).value.entry
      {
        var i :| 0 <= i < n && fields.keys[i] == k;
        assert Resolver(ctx, globals)(Lookup(fields, k)) == Resolve(ctx, globals, Lookup(fields, k));
      }
    }
  }

  // ---- new ----

  /** The defaults of the first `n` holder keys; an `undefined` default leaves its key out. */
  function DefaultsUpTo(sch: Schema, n: nat): Props
    requires SchemaOk(sch) && n <= |sch.holder.order|
  {
    if n == 0 then EmptyProps
    else
      var acc := DefaultsUpTo(sch, n - 1);
      var key := sch.holder.order[n - 1];
      var val := RunDflt(sch.ctx, sch.holder.entries[key].dflt);
      if val != Undef then Put(acc, key, val) else acc
  }

  /** `retVal` and `errors` while `new` overlays the partial. */
  datatype NewState = NewState(ret: Props, errors: seq<ErrEntry>)

  /** The `PropValidation` entry for a key whose value failed, as `formatError` turns it out. */
  function FieldError(sch: Schema, location: string, key: string, val: Value): ErrEntry
    requires key in sch.holder.entries
  {
    RunFmt(sch.ctx.host, sch.holder.entries[key].fmt,
      MakeErr(sch.ctx, PropValidation, location, sch.opts.schemaId, Some(key), Some(val)))
  }

  /** One key of the partial: undeclared keys are skipped; declared ones are transformed, stored as a clone and validated. */
  function OverlayKey(sch: Schema, partial: Props, st: NewState, key: string): NewState {
    if key !in sch.holder.entries then st
    else
      var e := sch.holder.entries[key];
      var val := ApplyTr(sch.ctx.host, e, Lookup(partial, key));
      NewState(Put(st.ret, key, sch.ctx.clone(val)),
        if RunVf(sch.ctx.host, e.vf, val) then st.errors else st.errors + [FieldError(sch, ".new", key, val)])
  }

  function OverlayUpTo(sch: Schema, partial: Props, start: Props, n: nat): NewState
    requires n <= |partial.keys|
  {
    if n == 0 then NewState(start, [])
    else OverlayKey(sch, partial, OverlayUpTo(sch, partial, start, n - 1), partial.keys[n - 1])
  }

  /** The properties `for (const key in partial)` visits; `undefined` becomes `{}`. */
  function PartialProps(partial: Value): Props {
    if partial.Obj? then partial.own else EmptyProps
  }

  /** What `new(partial)` returns, with its `onError` calls. */
  datatype Outcome = Outcome(value: Value, calls: seq<ErrArg>)

  function NewSpec(sch: Schema, partial: Value): Outcome
    requires SchemaOk(sch)
  {
    var p := PartialProps(partial);
    var st := OverlayUpTo(sch, p, DefaultsUpTo(sch, |sch.holder.order|), |p.keys|);
    Outcome(Obj(Plain, st.ret), if |st.errors| > 0 then [ArgList(st.errors)] else [])
  }

  /** `new`: fill the defaults, then overlay the partial. */
  method New(sch: Schema, partial: Value) returns (r: Outcome)
    requires SchemaOk(sch)
    ensures r == NewSpec(sch, partial)
  {
    var retVal := EmptyProps;
    var errors: seq<ErrEntry> := [];
    var order := sch.holder.order;
    for i := 0 to |order|
      invariant retVal == DefaultsUpTo(sch, i)
    {
      var key := order[i];
      var val := RunDflt(sch.ctx, sch.holder.entries[key].dflt);
      if val != Undef {
        retVal := Put(retVal, key, val);
      }
    }
    var p := PartialProps(partial);
    ghost var start := retVal;
    for i := 0 to |p.keys|
      invariant NewState(retVal, errors) == OverlayUpTo(sch, p, start, i)
    {
      var key := p.keys[i];
      if key !in sch.holder.entries {
        continue;
      }
      var vldrObj := sch.holder.entries[key];
      var val := Lookup(p, key);
      if vldrObj.transform.Some? {
        val := RunTr(sch.ctx.host, vldrObj.transform.value, val);
      }
      retVal := Put(retVal, key, sch.ctx.clone(val));
      if !RunVf(sch.ctx.host, vldrObj.vf, val) {
        errors := errors + [FieldError(sch, ".new", key, val)];
      }
    }
    r := Outcome(Obj(Plain, retVal), if |errors| > 0 then [ArgList(errors)] else []);
  }

  /** The defaults record has exactly the holder keys whose default is not `undefined`, with those defaults. */
  lemma {:induction false} DefaultsContent(sch: Schema, n: nat)
    requires SchemaOk(sch) && n <= |sch.holder.order|
    ensures WellFormed(DefaultsUpTo(sch, n))
    ensures forall k :: k in DefaultsUpTo(sch, n).vals <==>
      k in sch.holder.order[..n] && RunDflt(sch.ctx, sch.holder.entries[k].dflt) != Undef
    ensures forall k :: k in DefaultsUpTo(sch, n).vals ==>
      DefaultsUpTo(sch, n).vals[k] == RunDflt(sch.ctx, sch.holder.entries[k].dflt)
  {
    if n > 0 {
      DefaultsContent(sch, n - 1);
      assert sch.holder.order[..n] == sch.holder.order[..n - 1] + [sch.holder.order[n - 1]];
    }
  }

  /**
    Overlaying keeps what the partial does not declare and stores, for each
    declared key of the partial, the clone of its transformed value.
   */
  lemma {:induction false} OverlayContent(sch: Schema, partial: Props, start: Props, n: nat)
    requires n <= |partial.keys| && WellFormed(start) && Distinct(partial.keys)
    ensures WellFormed(OverlayUpTo(sch, partial, start, n).ret)
    ensures forall k :: k in OverlayUpTo(sch, partial, start, n).ret.vals <==>
      k in start.vals || (k in partial.keys[..n] && k in sch.holder.entries)
    ensures forall k :: k in partial.keys[..n] && k in sch.holder.entries ==>
      OverlayUpTo(sch, partial, start, n).ret.vals[k]
      == sch.ctx.clone(ApplyTr(sch.ctx.host, sch.holder.entries[k], Lookup(partial, k)))
    ensures forall k :: k in start.vals && !(k in partial.keys[..n] && k in sch.holder.entries) ==>
      OverlayUpTo(sch, partial, start, n).ret.vals[k] == start.vals[k]
  {
    if n > 0 {
      OverlayContent(sch, partial, start, n - 1);
      assert partial.keys[..n] == partial.keys[..n - 1] + [partial.keys[n - 1]];
    }
  }

  /** A declared key of the partial fails exactly when its transformed value fails its validator. */
  lemma {:induction false} OverlayErrors(sch: Schema, partial: Props, start: Props, n: nat)
    requires n <= |partial.keys|
    ensures OverlayUpTo(sch, partial, start, n).errors == [] <==>
      forall i :: 0 <= i < n && partial.keys[i] in sch.holder.entries ==>
        FieldOk(sch.ctx.host, sch.holder.entries[partial.keys[i]], Lookup(partial, partial.keys[i]))
  {
    if n > 0 {
      OverlayErrors(sch, partial, start, n - 1);
    }
  }

  /**
    `new(partial)`: the result has the non-`undefined` defaults and every
    declared key of the partial, the latter as `clone(transform(v))`; partial
    keys the schema does not declare are ignored; `onError` is called at most
    once, exactly when some declared key's value fails.
   */
  lemma NewResult(sch: Schema, partial: Value)
    requires SchemaOk(sch)
    requires partial.Obj? ==> Distinct(partial.own.keys)
    ensures var r := NewSpec(sch, partial);
      var p := PartialProps(partial);
      r.value.Obj? && WellFormed(r.value.own)
      && (forall k :: k in r.value.own.vals ==> k in sch.holder.entries)
      && (forall k :: k in r.value.own.vals <==>
            (k in sch.holder.entries && (RunDflt(sch.ctx, sch.holder.entries[k].dflt) != Undef || k in p.keys)))
      && (forall k :: k in p.keys && k in sch.holder.entries ==>
            r.value.own.vals[k] == sch.ctx.clone(ApplyTr(sch.ctx.host, sch.holder.entries[k], Lookup(p, k))))
      && (forall k :: k in sch.holder.entries && k !in p.keys && RunDflt(sch.ctx, sch.holder.entries[k].dflt) != Undef ==>
            r.value.own.vals[k] == RunDflt(sch.ctx, sch.holder.entries[k].dflt))
      && |r.calls| <= 1
      && (r.calls == [] <==>
            forall k :: k in p.keys && k in sch.holder.entries ==>
              FieldOk(sch.ctx.host, sch.holder.entries[k], Lookup(p, k)))
  {
    var p := PartialProps(partial);
    var n := |sch.holder.order|;
    var d := DefaultsUpTo(sch, n);
    DefaultsContent(sch, n);
    assert sch.holder.order[..n] == sch.holder.order;
    OverlayContent(sch, p, d, |p.keys|);
    OverlayErrors(sch, p, d, |p.keys|);
    assert p.keys[..|p.keys|] == p.keys;
    var st := OverlayUpTo(sch, p, d, |p.keys|);
    if st.errors == [] {
      forall k | k in p.keys && k in sch.holder.entries
        ensures FieldOk(sch.ctx.host, sch.holder.entries[k], Lookup(p, k))
      {
        var i :| 0 <= i < |p.keys| && p.keys[i] == k;
      }
    }
  }

  // ---- pick ----

  /** The extra members of a picked nested-schema field. */
  datatype NestedView = NestedView(
    /** The child schema's own `pick`. */
    pick: Value,
    /** `childSchemaNewFns[key]`; `None` when it is undefined. */
    newFn: Option<Dflt>,
    /** What `schema()` returns: a spread copy of the child schema. */
    schema: Value)

  /** What `pick(key)` returns. */
  datatype PickView = PickView(dflt: Dflt, vf: Vf, transform: Option<Tr>, nested: Option<NestedView>)

  /** The `test` of a picked field: `vf` after the transform when there is one. */
  predicate PickTest(sch: Schema, view: PickView, v: Value) {
    RunVf(sch.ctx.host, view.vf, if view.transform.Some? then RunTr(sch.ctx.host, view.transform.value, v) else v)
  }

  /**
    `pick(key)` for a declared key; `None` is `undefined`, returned for a falsy
    field spec.  An undeclared key makes the source dereference a missing
    holder entry, which this model excludes.
   */
  function Pick(sch: Schema, key: string): (r: Option<PickView>)
    requires key in sch.holder.entries
    ensures r.Some? <==> Truthy(Lookup(sch.fields, key))
    ensures r.Some? ==> r.value.dflt == sch.holder.entries[key].dflt
    ensures r.Some? ==> (r.value.nested.Some? <==> IsSchemaObj(Lookup(sch.fields, key)))
  {
    var prop := Lookup(sch.fields, key);
    var vldrObj := sch.holder.entries[key];
    if !Truthy(prop) then None
    else
      Some(PickView(vldrObj.dflt, vldrObj.vf, vldrObj.transform,
        if IsSchemaObj(prop) then
          Some(NestedView(Get(prop, "pick"),
            if key in sch.childNew then Some(sch.childNew[key]) else None,
            Obj(Plain, prop.own)))
        else None))
  }

  /** A picked field's `test` accepts exactly the values the schema's own check of that key accepts. */
  lemma PickTestIsFieldCheck(sch: Schema, key: string, v: Value)
    requires key in sch.holder.entries && Truthy(Lookup(sch.fields, key))
    ensures PickTest(sch, Pick(sch, key).value, v) <==> FieldOk(sch.ctx.host, sch.holder.entries[key], v)
  {
  }
}
