/**
  `_setupRunValidations`, `test` and `parse`: the in-place validation pass
  over a caller's object and the two operations built on it.
 */
module Validation {
  import opened Wrappers
  import opened JsValues
  import opened ErrorStuff
  import opened Options
  import opened Fields
  import opened Setup
  import opened Schemas

  /** The errors collected so far and the argument's current properties. */
  datatype RunState = RunState(errors: seq<ErrEntry>, own: Props)

  /** The value a declared key holds after phase one: its transform's result when it has one. */
  function Written(host: Env.Host, e: Entry, own: Props, key: string): Value {
    ApplyTr(host, e, Lookup(own, key))
  }

  /** Phase one for one declared key: transform and write back, then validate. */
  function CheckKey(sch: Schema, location: string, st: RunState, key: string): RunState
    requires key in sch.holder.entries
  {
    var e := sch.holder.entries[key];
    var val := ApplyTr(sch.ctx.host, e, Lookup(st.own, key));
    RunState(
      if RunVf(sch.ctx.host, e.vf, val) then st.errors else st.errors + [FieldError(sch, location, key, val)],
      if e.transform.Some? then Put(st.own, key, val) else st.own)
  }

  function CheckUpTo(sch: Schema, location: string, own: Props, n: nat): RunState
    requires SchemaOk(sch) && n <= |sch.holder.order|
  {
    if n == 0 then RunState([], own)
    else CheckKey(sch, location, CheckUpTo(sch, location, own, n - 1), sch.holder.order[n - 1])
  }

  /**
    Whether the extras pass deletes an undeclared key: `initSchemaFn` deletes
    under both `'filter'` and `'strict'`, `jetSchema` only under `'filter'`.
   */
  predicate Drops(sch: Schema) {
    sch.opts.safety != Pass && (sch.ctx.ver == InitSchemaFn || sch.opts.safety == Filter)
  }

  function StrictError(sch: Schema, location: string, key: string): ErrEntry {
    EntryItem(MakeErr(sch.ctx, StrictMode, location, sch.opts.schemaId, Some(key), None))
  }

  /** Phase two for one key of the argument. */
  function ExtraKey(sch: Schema, location: string, st: RunState, key: string): RunState {
    if key in sch.holder.entries then st
    else
      RunState(
        if sch.opts.safety == Strict then st.errors + [StrictError(sch, location, key)] else st.errors,
        if Drops(sch) then Remove(st.own, key) else st.own)
  }

  function ExtrasUpTo(sch: Schema, location: string, st: RunState, keys: seq<string>, n: nat): RunState
    requires n <= |keys|
  {
    if n == 0 then st
    else ExtraKey(sch, location, ExtrasUpTo(sch, location, st, keys, n - 1), keys[n - 1])
  }

  /** What `runValidations(arg)` returns and leaves in `arg`. */
  function ValidationSpec(sch: Schema, location: string, own: Props): RunState
    requires SchemaOk(sch)
  {
    var st := CheckUpTo(sch, location, own, |sch.holder.order|);
    if sch.opts.safety == Pass then st
    else ExtrasUpTo(sch, location, st, st.own.keys, |st.own.keys|)
  }

  /** `runValidations`: one pass over the holder keys, then one over the argument's keys. */
  method RunValidations(sch: Schema, location: string, arg: JsObject) returns (errors: seq<ErrEntry>)
    requires SchemaOk(sch)
    modifies arg
    ensures var st := ValidationSpec(sch, location, old(arg.own));
      errors == st.errors && arg.own == st.own && arg.kind == old(arg.kind)
  {
    errors := [];
    ghost var own0 := arg.own;
    var order := sch.holder.order;
    for i := 0 to |order|
      invariant RunState(errors, arg.own) == CheckUpTo(sch, location, own0, i)
      invariant arg.kind == old(arg.kind)
    {
      var key := order[i];
      var vldrObj := sch.holder.entries[key];
      var val := Lookup(arg.own, key);
      if vldrObj.transform.Some? {
        val := RunTr(sch.ctx.host, vldrObj.transform.value, val);
        arg.Set(key, val);
      }
      if !RunVf(sch.ctx.host, vldrObj.vf, val) {
        errors := errors + [FieldError(sch, location, key, val)];
      }
    }
    if sch.opts.safety != Pass {
      ghost var st1 := RunState(errors, arg.own);
      var keys := arg.own.keys;
      for i := 0 to |keys|
        invariant RunState(errors, arg.own) == ExtrasUpTo(sch, location, st1, keys, i)
        invariant arg.kind == old(arg.kind)
      {
        var key := keys[i];
        if key in sch.holder.entries {
          continue;
        } else if sch.opts.safety == Strict {
          errors := errors + [StrictError(sch, location, key)];
        }
        if sch.ctx.ver == InitSchemaFn || sch.opts.safety == Filter {
          arg.Delete(key);
        }
      }
    }
  }

  // ---- phase one ----

  /** One step of phase one writes at most the visited key, and writes it with its transformed value. */
  lemma CheckKeyLookup(sch: Schema, location: string, st: RunState, key: string, k: string)
    requires key in sch.holder.entries
    ensures Lookup(CheckKey(sch, location, st, key).own, k)
      == if k == key then Written(sch.ctx.host, sch.holder.entries[key], st.own, key) else Lookup(st.own, k)
  {
  }

  /** One step of phase one keeps the properties well formed and adds the key only when it transforms. */
  lemma CheckKeyVals(sch: Schema, location: string, st: RunState, key: string)
    requires key in sch.holder.entries && WellFormed(st.own)
    ensures var r := CheckKey(sch, location, st, key);
      && WellFormed(r.own)
      && (forall k :: k in r.own.vals <==> k in st.own.vals || (k == key && sch.holder.entries[key].transform.Some?))
  {
  }

  /** One step of phase one adds an error exactly when the key's current value fails its check. */
  lemma CheckKeyErrors(sch: Schema, location: string, st: RunState, key: string)
    requires key in sch.holder.entries
    ensures CheckKey(sch, location, st, key).errors == [] <==>
      st.errors == [] && FieldOk(sch.ctx.host, sch.holder.entries[key], Lookup(st.own, key))
  {
  }

  /** The holder key visited at step `n` has not been visited before. */
  lemma FreshKey(sch: Schema, n: nat)
    requires SchemaOk(sch) && 0 < n <= |sch.holder.order|
    ensures sch.holder.order[..n] == sch.holder.order[..n - 1] + [sch.holder.order[n - 1]]
    ensures sch.holder.order[n - 1] !in sch.holder.order[..n - 1]
  {
    var order := sch.holder.order;
    assert order[..n] == order[..n - 1] + [order[n - 1]];
    forall j | 0 <= j < n - 1 ensures order[j] != order[n - 1] { }
  }

  /** Phase one leaves alone every key it has not visited yet. */
  lemma {:induction false} CheckLookupAt(sch: Schema, location: string, own: Props, n: nat, k: string)
    requires SchemaOk(sch) && n <= |sch.holder.order| && k !in sch.holder.order[..n]
    ensures Lookup(CheckUpTo(sch, location, own, n).own, k) == Lookup(own, k)
  {
    if n > 0 {
      FreshKey(sch, n);
      CheckLookupAt(sch, location, own, n - 1, k);
      CheckKeyLookup(sch, location, CheckUpTo(sch, location, own, n - 1), sch.holder.order[n - 1], k);
    }
  }

  /** Phase one keeps the properties well formed and adds only the visited keys that transform. */
  lemma {:induction false} CheckUntouched(sch: Schema, location: string, own: Props, n: nat)
    requires SchemaOk(sch) && n <= |sch.holder.order| && WellFormed(own)
    ensures WellFormed(CheckUpTo(sch, location, own, n).own)
    ensures forall k :: k in CheckUpTo(sch, location, own, n).own.vals <==>
      k in own.vals || (k in sch.holder.order[..n] && sch.holder.entries[k].transform.Some?)
  {
    if n > 0 {
      CheckUntouched(sch, location, own, n - 1);
      FreshKey(sch, n);
      CheckKeyVals(sch, location, CheckUpTo(sch, location, own, n - 1), sch.holder.order[n - 1]);
    }
  }

  /** The holder key visited at step `i` holds its written value once the first `n` keys are done. */
  lemma {:induction false} CheckWrittenAt(sch: Schema, location: string, own: Props, n: nat, i: nat)
    requires SchemaOk(sch) && i < n <= |sch.holder.order|
    ensures Lookup(CheckUpTo(sch, location, own, n).own, sch.holder.order[i])
      == Written(sch.ctx.host, sch.holder.entries[sch.holder.order[i]], own, sch.holder.order[i])
  {
    var key := sch.holder.order[n - 1];
    CheckKeyLookup(sch, location, CheckUpTo(sch, location, own, n - 1), key, sch.holder.order[i]);
    if i < n - 1 {
      CheckWrittenAt(sch, location, own, n - 1, i);
    } else {
      FreshKey(sch, n);
      CheckLookupAt(sch, location, own, n - 1, key);
    }
  }

  /** Each holder key visited so far holds its written value. */
  lemma CheckWritten(sch: Schema, location: string, own: Props, n: nat)
    requires SchemaOk(sch) && n <= |sch.holder.order|
    ensures forall i :: 0 <= i < n ==>
      Lookup(CheckUpTo(sch, location, own, n).own, sch.holder.order[i])
      == Written(sch.ctx.host, sch.holder.entries[sch.holder.order[i]], own, sch.holder.order[i])
  {
    forall i | 0 <= i < n
      ensures Lookup(CheckUpTo(sch, location, own, n).own, sch.holder.order[i])
        == Written(sch.ctx.host, sch.holder.entries[sch.holder.order[i]], own, sch.holder.order[i])
    {
      CheckWrittenAt(sch, location, own, n, i);
    }
  }

  /** The first `n` holder keys' original values all pass their checks. */
  predicate FieldsOkUpTo(sch: Schema, own: Props, n: nat)
    requires SchemaOk(sch) && n <= |sch.holder.order|
  {
    forall i :: 0 <= i < n ==>
      FieldOk(sch.ctx.host, sch.holder.entries[sch.holder.order[i]], Lookup(own, sch.holder.order[i]))
  }

  /** The first `n` keys pass when the first `n - 1` do and the `n`-th does. */
  lemma FieldsOkStep(sch: Schema, own: Props, n: nat)
    requires SchemaOk(sch) && 0 < n <= |sch.holder.order|
    ensures var key := sch.holder.order[n - 1];
      FieldsOkUpTo(sch, own, n) <==> FieldsOkUpTo(sch, own, n - 1) && FieldOk(sch.ctx.host, sch.holder.entries[key], Lookup(own, key))
  {
    if FieldsOkUpTo(sch, own, n - 1)
      && FieldOk(sch.ctx.host, sch.holder.entries[sch.holder.order[n - 1]], Lookup(own, sch.holder.order[n - 1]))
    {
      forall i | 0 <= i < n
        ensures FieldOk(sch.ctx.host, sch.holder.entries[sch.holder.order[i]], Lookup(own, sch.holder.order[i]))
      {
      }
    }
  }

  /** Phase one reports nothing exactly when every holder key's original value passes. */
  lemma {:induction false} CheckErrors(sch: Schema, location: string, own: Props, n: nat)
    requires SchemaOk(sch) && n <= |sch.holder.order|
    ensures CheckUpTo(sch, location, own, n).errors == [] <==> FieldsOkUpTo(sch, own, n)
  {
    if n > 0 {
      CheckErrors(sch, location, own, n - 1);
      FreshKey(sch, n);
      var key := sch.holder.order[n - 1];
      var prev := CheckUpTo(sch, location, own, n - 1);
      CheckKeyErrors(sch, location, prev, key);
      CheckLookupAt(sch, location, own, n - 1, key);
      FieldsOkStep(sch, own, n);
    }
  }

  /** The location only labels error items: the properties phase one leaves do not depend on it. */
  lemma {:induction false} CheckLocationFree(sch: Schema, loc1: string, loc2: string, own: Props, n: nat)
    requires SchemaOk(sch) && n <= |sch.holder.order|
    ensures CheckUpTo(sch, loc1, own, n).own == CheckUpTo(sch, loc2, own, n).own
    ensures CheckUpTo(sch, loc1, own, n).errors == [] <==> CheckUpTo(sch, loc2, own, n).errors == []
  {
    if n > 0 {
      CheckLocationFree(sch, loc1, loc2, own, n - 1);
    }
  }

  // ---- phase two ----

  /** The undeclared keys among `keys`, in order. */
  function Undeclared(sch: Schema, keys: seq<string>): (r: seq<string>)
    ensures forall k :: k in r <==> k in keys && k !in sch.holder.entries
  {
    if keys == [] then []
    else if keys[|keys| - 1] in sch.holder.entries then Undeclared(sch, keys[..|keys| - 1])
    else Undeclared(sch, keys[..|keys| - 1]) + [keys[|keys| - 1]]
  }

  /**
    The extras pass deletes an undeclared key exactly when `Drops` and leaves
    every other property as it was.
   */
  lemma {:induction false} ExtrasOwn(sch: Schema, location: string, st: RunState, keys: seq<string>, n: nat)
    requires n <= |keys| && WellFormed(st.own)
    ensures var r := ExtrasUpTo(sch, location, st, keys, n);
      && WellFormed(r.own)
      && (forall k :: k in r.own.vals <==>
            k in st.own.vals && !(k in keys[..n] && k !in sch.holder.entries && Drops(sch)))
      && (forall k :: k in r.own.vals ==> r.own.vals[k] == st.own.vals[k])
  {
    if n > 0 {
      ExtrasOwn(sch, location, st, keys, n - 1);
      assert keys[..n] == keys[..n - 1] + [keys[n - 1]];
    }
  }

  /**
    The extras pass adds a `StrictMode` item per undeclared key, in key order,
    under `'strict'` and nothing otherwise.
   */
  lemma {:induction false} ExtrasErrors(sch: Schema, location: string, st: RunState, keys: seq<string>, n: nat)
    requires n <= |keys|
    ensures var r := ExtrasUpTo(sch, location, st, keys, n);
      && (sch.opts.safety != Strict ==> r.errors == st.errors)
      && (sch.opts.safety == Strict ==>
            |r.errors| == |st.errors| + |Undeclared(sch, keys[..n])|
            && r.errors[..|st.errors|] == st.errors
            && forall i :: 0 <= i < |Undeclared(sch, keys[..n])| ==>
                 r.errors[|st.errors| + i] == StrictError(sch, location, Undeclared(sch, keys[..n])[i]))
  {
    if n > 0 {
      ExtrasErrors(sch, location, st, keys, n - 1);
      assert keys[..n][..n - 1] == keys[..n - 1];
    }
  }

  /** Both halves of the extras pass together. */
  lemma ExtrasState(sch: Schema, location: string, st: RunState, keys: seq<string>, n: nat)
    requires n <= |keys| && WellFormed(st.own)
    ensures var r := ExtrasUpTo(sch, location, st, keys, n);
      && WellFormed(r.own)
      && (forall k :: k in r.own.vals <==>
            k in st.own.vals && !(k in keys[..n] && k !in sch.holder.entries && Drops(sch)))
      && (forall k :: k in r.own.vals ==> r.own.vals[k] == st.own.vals[k])
      && (sch.opts.safety != Strict ==> r.errors == st.errors)
      && (sch.opts.safety == Strict ==>
            |r.errors| == |st.errors| + |Undeclared(sch, keys[..n])|
            && r.errors[..|st.errors|] == st.errors
            && forall i :: 0 <= i < |Undeclared(sch, keys[..n])| ==>
                 r.errors[|st.errors| + i] == StrictError(sch, location, Undeclared(sch, keys[..n])[i]))
  {
    ExtrasOwn(sch, location, st, keys, n);
    ExtrasErrors(sch, location, st, keys, n);
  }

  // ---- the whole pass ----

  /** The declared keys are exactly those phase one visits. */
  lemma DeclaredKeys(sch: Schema)
    requires SchemaOk(sch)
    ensures sch.holder.order[..|sch.holder.order|] == sch.holder.order
    ensures forall k :: k in sch.holder.entries <==> k in sch.holder.order
  {
    assert sch.holder.order[..|sch.holder.order|] == sch.holder.order;
  }

  /**
    After phase one each declared key holds its written value and every
    undeclared key is as it was.
   */
  lemma PhaseOneResult(sch: Schema, location: string, own: Props)
    requires SchemaOk(sch) && WellFormed(own)
    ensures var st := CheckUpTo(sch, location, own, |sch.holder.order|);
      && WellFormed(st.own)
      && (forall k :: k in sch.holder.entries ==>
            Lookup(st.own, k) == Written(sch.ctx.host, sch.holder.entries[k], own, k))
      && (forall k :: k !in sch.holder.entries ==> (k in st.own.vals <==> k in own.vals))
      && (forall k :: k !in sch.holder.entries ==> Lookup(st.own, k) == Lookup(own, k))
  {
    var n := |sch.holder.order|;
    DeclaredKeys(sch);
    CheckUntouched(sch, location, own, n);
    CheckWritten(sch, location, own, n);
    forall k | k in sch.holder.entries
      ensures Lookup(CheckUpTo(sch, location, own, n).own, k) == Written(sch.ctx.host, sch.holder.entries[k], own, k)
    {
      var i :| 0 <= i < n && sch.holder.order[i] == k;
    }
    forall k | k !in sch.holder.entries
      ensures Lookup(CheckUpTo(sch, location, own, n).own, k) == Lookup(own, k)
    {
      CheckLookupAt(sch, location, own, n, k);
    }
  }

  /**
    What the pass leaves in the argument: each declared key holds its written
    value (the transform's result when there is one); an undeclared key stays,
    unchanged, unless the safety mode deletes it.
   */
  lemma ValidationResult(sch: Schema, location: string, own: Props)
    requires SchemaOk(sch) && WellFormed(own)
    ensures var r := ValidationSpec(sch, location, own);
      && WellFormed(r.own)
      && (forall k :: k in sch.holder.entries ==>
            Lookup(r.own, k) == Written(sch.ctx.host, sch.holder.entries[k], own, k))
      && (forall k :: k !in sch.holder.entries ==>
            (k in r.own.vals <==> k in own.vals && !Drops(sch)))
      && (forall k :: k !in sch.holder.entries && k in r.own.vals ==> r.own.vals[k] == own.vals[k])
  {
    PhaseOneResult(sch, location, own);
    var st := CheckUpTo(sch, location, own, |sch.holder.order|);
    if sch.opts.safety != Pass {
      ExtrasOwn(sch, location, st, st.own.keys, |st.own.keys|);
      assert st.own.keys[..|st.own.keys|] == st.own.keys;
    }
  }

  /** Phase one reports nothing exactly when every declared key's original value passes its check. */
  lemma PhaseOneClean(sch: Schema, location: string, own: Props)
    requires SchemaOk(sch)
    ensures CheckUpTo(sch, location, own, |sch.holder.order|).errors == [] <==>
      forall k :: k in sch.holder.entries ==> FieldOk(sch.ctx.host, sch.holder.entries[k], Lookup(own, k))
  {
    var n := |sch.holder.order|;
    DeclaredKeys(sch);
    CheckErrors(sch, location, own, n);
    if CheckUpTo(sch, location, own, n).errors == [] {
      forall k | k in sch.holder.entries
        ensures FieldOk(sch.ctx.host, sch.holder.entries[k], Lookup(own, k))
      {
        var i :| 0 <= i < n && sch.holder.order[i] == k;
      }
    }
  }

  /** Under `'strict'` the extras pass adds nothing exactly when every key of the argument is declared. */
  lemma StrictClean(sch: Schema, location: string, st: RunState)
    requires sch.opts.safety == Strict
    ensures ExtrasUpTo(sch, location, st, st.own.keys, |st.own.keys|).errors == st.errors <==>
      forall k :: k in st.own.keys ==> k in sch.holder.entries
  {
    var keys := st.own.keys;
    ExtrasErrors(sch, location, st, keys, |keys|);
    assert keys[..|keys|] == keys;
    var u := Undeclared(sch, keys);
    if |u| > 0 {
      assert u[0] in keys && u[0] !in sch.holder.entries;
      var r := ExtrasUpTo(sch, location, st, keys, |keys|);
      assert |r.errors| > |st.errors|;
    }
    if exists k :: k in keys && k !in sch.holder.entries {
      var k :| k in keys && k !in sch.holder.entries;
      assert k in u;
    }
  }

  /**
    The pass reports nothing exactly when every declared key's value passes
    its check and, under `'strict'`, the argument has no undeclared key.
   */
  lemma ValidationClean(sch: Schema, location: string, own: Props)
    requires SchemaOk(sch) && WellFormed(own)
    ensures ValidationSpec(sch, location, own).errors == [] <==>
      (forall k :: k in sch.holder.entries ==> FieldOk(sch.ctx.host, sch.holder.entries[k], Lookup(own, k)))
      && (sch.opts.safety == Strict ==> forall k :: k in own.keys ==> k in sch.holder.entries)
  {
    var n := |sch.holder.order|;
    PhaseOneClean(sch, location, own);
    var st := CheckUpTo(sch, location, own, n);
    if sch.opts.safety != Pass {
      ExtrasErrors(sch, location, st, st.own.keys, |st.own.keys|);
      assert st.own.keys[..|st.own.keys|] == st.own.keys;
    }
    if sch.opts.safety == Strict {
      StrictClean(sch, location, st);
      PhaseOneResult(sch, location, own);
      assert (forall k :: k in own.keys ==> k in sch.holder.entries)
        <==> (forall k :: k in st.own.keys ==> k in sch.holder.entries);
    }
  }

  // ---- test ----

  /** What `test(arg)` returns, the `onError` calls it makes, and the argument afterwards. */
  datatype TestOutcome = TestOutcome(ok: bool, calls: seq<ErrArg>, after: Value)

  function TestSpec(sch: Schema, arg: Value): (t: TestOutcome)
    requires SchemaOk(sch)
    ensures !arg.Obj? ==> t.after == arg
    ensures arg == Undef ==> t.ok == sch.opts.optional && (t.calls == [] <==> t.ok)
    ensures arg == Null ==> t.ok == sch.opts.nullable && (t.calls == [] <==> t.ok)
    ensures !arg.Obj? && arg != Undef && arg != Null ==> !t.ok && t.calls == []
    ensures arg.Obj? ==> (t.ok <==> t.calls == []) && |t.calls| <= 1 && t.after.Obj? && t.after.kind == arg.kind
  {
    if arg == Undef then
      if sch.opts.optional then TestOutcome(true, [], arg)
      else TestOutcome(false, [ArgItem(MakeErr(sch.ctx, UndefButNotOpt, ".test", sch.opts.schemaId, None, None))], arg)
    else if arg == Null then
      if sch.opts.nullable then TestOutcome(true, [], arg)
      else TestOutcome(false, [ArgItem(MakeErr(sch.ctx, NullButNotNullable, ".test", sch.opts.schemaId, None, None))], arg)
    else if !arg.Obj? then TestOutcome(false, [], arg)
    else
      var st := ValidationSpec(sch, ".test", arg.own);
      if |st.errors| > 0 then TestOutcome(false, [ArgList(st.errors)], Obj(arg.kind, st.own))
      else TestOutcome(true, [], Obj(arg.kind, st.own))
  }

  /** `test`: the `undefined`/`null` branches, then the validation pass on an object. */
  method Test(sch: Schema, arg: Arg) returns (ok: bool, calls: seq<ErrArg>)
    requires SchemaOk(sch)
    modifies arg.Footprint()
    ensures var t := TestSpec(sch, old(arg.Current()));
      ok == t.ok && calls == t.calls && arg.Current() == t.after
  {
    if arg.Prim? {
      var v := arg.v;
      if v == Undef {
        if sch.opts.optional {
          return true, [];
        } else {
          return false, [ArgItem(MakeErr(sch.ctx, UndefButNotOpt, ".test", sch.opts.schemaId, None, None))];
        }
      } else if v == Null {
        if sch.opts.nullable {
          return true, [];
        } else {
          return false, [ArgItem(MakeErr(sch.ctx, NullButNotNullable, ".test", sch.opts.schemaId, None, None))];
        }
      }
      return false, [];
    }
    var errors := RunValidations(sch, ".test", arg.o);
    if |errors| > 0 {
      ok, calls := false, [ArgList(errors)];
    } else {
      ok, calls := true, [];
    }
  }

  /**
    On an object, `test` passes exactly when every declared key's value passes
    its check (after its transform) and, under `'strict'`, no undeclared key
    is present.
   */
  lemma TestPassesIff(sch: Schema, arg: Value)
    requires SchemaOk(sch) && arg.Obj? && WellFormed(arg.own)
    ensures TestSpec(sch, arg).ok <==>
      (forall k :: k in sch.holder.entries ==> FieldOk(sch.ctx.host, sch.holder.entries[k], Lookup(arg.own, k)))
      && (sch.opts.safety == Strict ==> forall k :: k in arg.own.keys ==> k in sch.holder.entries)
  {
    ValidationClean(sch, ".test", arg.own);
  }

  // ---- parse ----

  /** `initSchemaFn` labels `parse`'s validation errors `.parse`; `jetSchema` reuses `.test`. */
  function ParseLocation(ver: Version): string {
    match ver
    case InitSchemaFn => ".parse"
    case JetSchema => ".test"
  }

  /** The `onError` calls `parse(arg)` makes and the argument afterwards (which it returns). */
  datatype ParseOutcome = ParseOutcome(calls: seq<ErrArg>, after: Value)

  function ParseSpec(sch: Schema, arg: Value): (p: ParseOutcome)
    requires SchemaOk(sch)
    ensures !arg.Obj? ==> p == ParseOutcome([ArgItem(MakeErr(sch.ctx, NotAnObj, ".parse", sch.opts.schemaId, None, None))], arg)
    ensures arg.Obj? ==> |p.calls| <= 1 && p.after.Obj? && p.after.kind == arg.kind
  {
    if !arg.Obj? then
      ParseOutcome([ArgItem(MakeErr(sch.ctx, NotAnObj, ".parse", sch.opts.schemaId, None, None))], arg)
    else
      var st := ValidationSpec(sch, ParseLocation(sch.ctx.ver), arg.own);
      ParseOutcome(if |st.errors| > 0 then [ArgList(st.errors)] else [], Obj(arg.kind, st.own))
  }

  /** `parse`: returns the very argument it was given, after the validation pass on an object. */
  method Parse(sch: Schema, arg: Arg) returns (ret: Arg, calls: seq<ErrArg>)
    requires SchemaOk(sch)
    modifies arg.Footprint()
    ensures ret == arg
    ensures var p := ParseSpec(sch, old(arg.Current()));
      calls == p.calls && arg.Current() == p.after
  {
    if arg.Prim? {
      return arg, [ArgItem(MakeErr(sch.ctx, NotAnObj, ".parse", sch.opts.schemaId, None, None))];
    }
    var errors := RunValidations(sch, ParseLocation(sch.ctx.ver), arg.o);
    if |errors| > 0 {
      calls := [ArgList(errors)];
    } else {
      calls := [];
    }
    ret := arg;
  }

  /**
    `parse` leaves an object exactly as `test` does and reports an error
    exactly when `test` fails; for `jetSchema` it makes the very same calls.
   */
  lemma ParseMatchesTest(sch: Schema, arg: Value)
    requires SchemaOk(sch) && arg.Obj?
    ensures ParseSpec(sch, arg).after == TestSpec(sch, arg).after
    ensures ParseSpec(sch, arg).calls == [] <==> TestSpec(sch, arg).ok
    ensures sch.ctx.ver == JetSchema ==> ParseSpec(sch, arg).calls == TestSpec(sch, arg).calls
  {
    var n := |sch.holder.order|;
    var loc := ParseLocation(sch.ctx.ver);
    CheckLocationFree(sch, loc, ".test", arg.own, n);
    var st1 := CheckUpTo(sch, loc, arg.own, n);
    var st2 := CheckUpTo(sch, ".test", arg.own, n);
    if sch.opts.safety != Pass {
      ExtrasLocationFree(sch, loc, ".test", st1, st2, st1.own.keys, |st1.own.keys|);
    }
  }

  /** The extras pass, too, changes the same properties and reports alike whatever the location. */
  lemma {:induction false} ExtrasLocationFree(sch: Schema, loc1: string, loc2: string, st1: RunState, st2: RunState,
                                              keys: seq<string>, n: nat)
    requires n <= |keys| && st1.own == st2.own && (st1.errors == [] <==> st2.errors == [])
    ensures ExtrasUpTo(sch, loc1, st1, keys, n).own == ExtrasUpTo(sch, loc2, st2, keys, n).own
    ensures ExtrasUpTo(sch, loc1, st1, keys, n).errors == [] <==> ExtrasUpTo(sch, loc2, st2, keys, n).errors == []
  {
    if n > 0 {
      ExtrasLocationFree(sch, loc1, loc2, st1, st2, keys, n - 1);
    }
  }

  // ---- how the operations fit together ----

  /**
    An object that `new()` makes from the defaults alone passes `test` exactly
    when every declared key's default passes its check after its transform.
   */
  lemma NewDefaultsPassTest(sch: Schema)
    requires SchemaOk(sch)
    ensures TestSpec(sch, NewSpec(sch, Undef).value).ok <==>
      forall k :: k in sch.holder.entries ==>
        FieldOk(sch.ctx.host, sch.holder.entries[k], RunDflt(sch.ctx, sch.holder.entries[k].dflt))
  {
    NewResult(sch, Undef);
    var v := NewSpec(sch, Undef).value;
    TestPassesIff(sch, v);
    forall k | k in sch.holder.entries
      ensures Lookup(v.own, k) == RunDflt(sch.ctx, sch.holder.entries[k].dflt)
    {
    }
    assert forall k :: k in v.own.keys ==> k in v.own.vals;
  }

  /**
    Under `'filter'` the object `test` leaves holds declared keys only, and
    every declared key it held before is still present; under `'pass'` the
    undeclared keys stay as they were.
   */
  lemma TestSafetyEffect(sch: Schema, arg: Value)
    requires SchemaOk(sch) && arg.Obj? && WellFormed(arg.own)
    ensures var after := TestSpec(sch, arg).after.own;
      && (sch.opts.safety == Filter ==> forall k :: k in after.vals ==> k in sch.holder.entries)
      && (sch.opts.safety == Pass ==>
            forall k :: k !in sch.holder.entries ==> Lookup(after, k) == Lookup(arg.own, k))
      && (sch.opts.safety == Strict && sch.ctx.ver == JetSchema ==>
            forall k :: k !in sch.holder.entries ==> Lookup(after, k) == Lookup(arg.own, k))
      && (sch.opts.safety == Strict && sch.ctx.ver == InitSchemaFn ==>
            forall k :: k in after.vals ==> k in sch.holder.entries)
      && (forall k :: k in arg.own.vals && k in sch.holder.entries ==> k in after.vals)
  {
    ValidationResult(sch, ".test", arg.own);
    var after := TestSpec(sch, arg).after.own;
    forall k | k in arg.own.vals && k in sch.holder.entries
      ensures k in after.vals
    {
      assert Lookup(after, k) == Written(sch.ctx.host, sch.holder.entries[k], arg.own, k);
      CheckUntouched(sch, ".test", arg.own, |sch.holder.order|);
      DeclaredKeys(sch);
      if sch.opts.safety != Pass {
        var st := CheckUpTo(sch, ".test", arg.own, |sch.holder.order|);
        ExtrasOwn(sch, ".test", st, st.own.keys, |st.own.keys|);
      }
    }
  }
}
