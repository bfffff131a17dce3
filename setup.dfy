/**
  `_setupAllVldtrsHolder` for both engines: resolve every schema key into a
  validator-holder entry, check each default against its validator, and
  collect the errors for a single `onError` call.
 */
module Setup {
  import opened Wrappers
  import opened JsValues
  import opened ErrorStuff
  import opened Fields
  import opened Globals

  /** `allVldtrsHolder`: its keys in insertion order and the entry of each. */
  datatype Holder = Holder(order: seq<string>, entries: map<string, Entry>)

  predicate HolderOk(h: Holder) {
    Distinct(h.order)
    && (forall k :: k in h.entries ==> k in h.order)
    && (forall k :: k in h.order ==> k in h.entries)
  }

  /** What `_setupAllVldtrsHolder` returns, with the errors it collected. */
  datatype Setup = Setup(holder: Holder, childNew: map<string, Dflt>, errors: seq<ErrEntry>)

  /** The resolver of the schema's engine. */
  function Resolve(ctx: Ctx, globals: GlobalsMap, spec: Value): Result<Resolved> {
    match ctx.ver
    case InitSchemaFn => ResolveInit(ctx, spec)
    case JetSchema => Success(ResolveJet(ctx, globals, spec))
  }

  function SetupLocation(ver: Version): string {
    match ver
    case InitSchemaFn => "_setupAll" + "VldtrsHolder"
    case JetSchema => "._setupAll" + "VldtrsHolder"
  }

  /**
    The errors one key contributes: an `Init` item when no branch recognised
    its property, then a `DefaultVal` item, passed through the entry's
    `formatError`, when its default fails its validator.
   */
  function KeyErrors(ctx: Ctx, schemaId: Option<string>, key: string, r: Resolved): seq<ErrEntry> {
    var loc := SetupLocation(ctx.ver);
    var initErr := if r.recognised then [] else [EntryItem(MakeErr(ctx, Init, loc, schemaId, Some(key), None))];
    var d := RunDflt(ctx, r.entry.dflt);
    var dfltErr := if RunVf(ctx.host, r.entry.vf, d) then []
                   else [RunFmt(ctx.host, r.entry.fmt, MakeErr(ctx, DefaultVal, loc, schemaId, Some(key), Some(d)))];
    initErr + dfltErr
  }

  /** The default of a key passes its validator when called once at setup. */
  predicate DefaultOk(ctx: Ctx, r: Resolved) {
    RunVf(ctx.host, r.entry.vf, RunDflt(ctx, r.entry.dflt))
  }

  /**
    A key contributes nothing exactly when it is recognised and its default
    passes; otherwise an `Init` item comes first and a formatted `DefaultVal`
    item carrying the default comes last.
   */
  lemma KeyErrorsShape(ctx: Ctx, schemaId: Option<string>, key: string, r: Resolved)
    ensures var errs := KeyErrors(ctx, schemaId, key, r);
      && (errs == [] <==> r.recognised && DefaultOk(ctx, r))
      && |errs| == (if r.recognised then 0 else 1) + (if DefaultOk(ctx, r) then 0 else 1)
      && (!r.recognised ==>
            errs[0] == EntryItem(MakeErr(ctx, Init, SetupLocation(ctx.ver), schemaId, Some(key), None)))
      && (!DefaultOk(ctx, r) ==>
            errs[|errs| - 1] == RunFmt(ctx.host, r.entry.fmt,
              MakeErr(ctx, DefaultVal, SetupLocation(ctx.ver), schemaId, Some(key), Some(RunDflt(ctx, r.entry.dflt)))))
  {
  }

  /** The errors each key contributes, as a function of the key and its resolution. */
  type KeyErrFn = (string, Resolved) -> seq<ErrEntry>

  /** `KeyErrors` for the schema's engine and `id`. */
  function KeyErrorsOf(ctx: Ctx, schemaId: Option<string>): KeyErrFn {
    (key: string, r: Resolved) => KeyErrors(ctx, schemaId, key, r)
  }

  /** Adds one key whose property resolved to `r`; `errs` gives the errors it contributes. */
  function AddKey(errs: KeyErrFn, s: Setup, key: string, r: Resolved): Setup {
    Setup(
      Holder(if key in s.holder.entries then s.holder.order else s.holder.order + [key],
             s.holder.entries[key := r.entry]),
      if r.childNew.Some? then s.childNew[key := r.childNew.value] else s.childNew,
      s.errors + errs(key, r))
  }

  /**
    One iteration of the loop: resolve the key's property with the engine's
    resolver `resolve`, which may throw, and add it.
   */
  function Step(errs: KeyErrFn, resolve: Value -> Result<Resolved>, fields: Props,
                s: Result<Setup>, key: string): Result<Setup>
  {
    if s.Failure? then s
    else
      var r := resolve(Lookup(fields, key));
      if r.Failure? then Failure(r.error) else Success(AddKey(errs, s.value, key, r.value))
  }

  /** The state after the first `n` keys of the schema object; a failure is an exception thrown while resolving. */
  function SetupUpTo(errs: KeyErrFn, resolve: Value -> Result<Resolved>, fields: Props, n: nat): Result<Setup>
    requires n <= |fields.keys|
  {
    if n == 0 then Success(Setup(Holder([], map[]), map[], []))
    else Step(errs, resolve, fields, SetupUpTo(errs, resolve, fields, n - 1), fields.keys[n - 1])
  }

  /** Once a key has thrown, setup stays failed with that exception. */
  lemma {:induction false} FailureSticks(errs: KeyErrFn, resolve: Value -> Result<Resolved>, fields: Props, n: nat, m: nat)
    requires n <= m <= |fields.keys|
    requires SetupUpTo(errs, resolve, fields, n).Failure?
    ensures SetupUpTo(errs, resolve, fields, m) == SetupUpTo(errs, resolve, fields, n)
    decreases m - n
  {
    if n < m {
      FailureSticks(errs, resolve, fields, n + 1, m);
    }
  }

  /** The `onError` calls of setup: one with all errors, only when there are any. */
  function SetupCalls(s: Setup): (calls: seq<ErrArg>)
    ensures |calls| <= 1
    ensures |calls| == 1 <==> s.errors != []
    ensures calls != [] ==> calls[0] == ArgList(s.errors)
  {
    if |s.errors| > 0 then [ArgList(s.errors)] else []
  }

  /**
    One iteration from a successful state: a key whose property throws ends
    setup with that exception, and any other key extends the state by itself.
   */
  lemma SetupStep(errs: KeyErrFn, resolve: Value -> Result<Resolved>, fields: Props, i: nat)
    requires i < |fields.keys|
    requires SetupUpTo(errs, resolve, fields, i).Success?
    ensures var r := resolve(Lookup(fields, fields.keys[i]));
      r.Failure? ==> SetupUpTo(errs, resolve, fields, |fields.keys|) == Failure(r.error)
    ensures var r := resolve(Lookup(fields, fields.keys[i]));
      var s := SetupUpTo(errs, resolve, fields, i).value;
      r.Success? ==> SetupUpTo(errs, resolve, fields, i + 1) == Success(AddKey(errs, s, fields.keys[i], r.value))
  {
    if resolve(Lookup(fields, fields.keys[i])).Failure? {
      FailureSticks(errs, resolve, fields, i + 1, |fields.keys|);
    }
  }

  /** The body of the loop for one resolved key: record it, its child `new` and its errors. */
  method AddKeyTo(ctx: Ctx, schemaId: Option<string>, holder: Holder, childNew: map<string, Dflt>,
                  errors: seq<ErrEntry>, key: string, res: Resolved)
    returns (holder': Holder, childNew': map<string, Dflt>, errors': seq<ErrEntry>)
    ensures Setup(holder', childNew', errors') == AddKey(KeyErrorsOf(ctx, schemaId), Setup(holder, childNew, errors), key, res)
  {
    childNew' := childNew;
    if res.childNew.Some? {
      childNew' := childNew[key := res.childNew.value];
    }
    errors' := errors + KeyErrors(ctx, schemaId, key, res);
    holder' := holder;
    if key !in holder.entries {
      holder' := holder'.(order := holder.order + [key]);
    }
    holder' := holder'.(entries := holder'.entries[key := res.entry]);
  }

  /** `_setupAllVldtrsHolder`: one pass over the schema object's keys. */
  method SetupAllVldtrsHolder(ctx: Ctx, resolve: Value -> Result<Resolved>, fields: Props, schemaId: Option<string>)
    returns (r: Result<Setup>, calls: seq<ErrArg>)
    ensures r == SetupUpTo(KeyErrorsOf(ctx, schemaId), resolve, fields, |fields.keys|)
    ensures r.Success? ==> calls == SetupCalls(r.value)
    ensures r.Failure? ==> calls == []
  {
    ghost var errs := KeyErrorsOf(ctx, schemaId);
    var holder := Holder([], map[]);
    var childNew: map<string, Dflt> := map[];
    var errors: seq<ErrEntry> := [];
    var i := 0;
    while i < |fields.keys|
      invariant 0 <= i <= |fields.keys|
      invariant SetupUpTo(errs, resolve, fields, i) == Success(Setup(holder, childNew, errors))
    {
      var key := fields.keys[i];
      var resolved := resolve(Lookup(fields, key));
      SetupStep(errs, resolve, fields, i);
      if resolved.Failure? {
        return Failure(resolved.error), [];
      }
      holder, childNew, errors := AddKeyTo(ctx, schemaId, holder, childNew, errors, key, resolved.value);
      i := i + 1;
    }
    r := Success(Setup(holder, childNew, errors));
    calls := SetupCalls(Setup(holder, childNew, errors));
  }

  /** Setup fails exactly when resolving some key fails. */
  lemma {:induction false} SetupFailsIff(errs: KeyErrFn, resolve: Value -> Result<Resolved>, fields: Props, n: nat)
    requires n <= |fields.keys|
    ensures SetupUpTo(errs, resolve, fields, n).Failure? <==>
      exists i :: 0 <= i < n && resolve(Lookup(fields, fields.keys[i])).Failure?
  {
    if n > 0 {
      SetupFailsIff(errs, resolve, fields, n - 1);
    }
  }

  /** A setup that succeeded resolved every key. */
  lemma {:induction false} SetupResolvedAll(errs: KeyErrFn, resolve: Value -> Result<Resolved>, fields: Props, n: nat)
    requires n <= |fields.keys|
    requires SetupUpTo(errs, resolve, fields, n).Success?
    ensures forall i :: 0 <= i < n ==> resolve(Lookup(fields, fields.keys[i])).Success?
  {
    if n > 0 {
      SetupResolvedAll(errs, resolve, fields, n - 1);
    }
  }

  /**
    After the first `n` keys: the holder lists exactly those keys in order,
    each with the entry its property resolved to, and the keys whose property
    is a nested schema, and only they, have a child `new`.
   */
  ghost predicate HolderMatches(resolve: Value -> Result<Resolved>, fields: Props, n: nat, h: Holder, cn: map<string, Dflt>)
    requires n <= |fields.keys|
  {
    && HolderOk(h)
    && h.order == fields.keys[..n]
    && (forall i :: 0 <= i < n ==> KeyMatches(resolve, fields.keys[i], Lookup(fields, fields.keys[i]), h, cn))
    && (forall k :: k in cn ==> k in fields.keys[..n])
  }

  /** One key: its property resolves, the holder has the entry, and it has a child `new` exactly for a nested schema. */
  ghost predicate KeyMatches(resolve: Value -> Result<Resolved>, key: string, v: Value, h: Holder, cn: map<string, Dflt>) {
    && resolve(v).Success?
    && key in h.entries
    && h.entries[key] == resolve(v).value.entry
    && (key in cn <==> resolve(v).value.childNew.Some?)
  }

  /** Appending a fresh key with its entry keeps a holder well formed. */
  lemma HolderOkAdd(h: Holder, key: string, e: Entry)
    requires HolderOk(h) && key !in h.order
    ensures key !in h.entries
    ensures HolderOk(Holder(h.order + [key], h.entries[key := e]))
  {
    var o := h.order + [key];
    forall i, j | 0 <= i < j < |o| ensures o[i] != o[j] {
      if j == |o| - 1 {
        assert o[i] in h.order;
      }
    }
  }

  /** Adding the next, fresh key keeps the holder matching the longer prefix. */
  lemma HolderMatchesStep(resolve: Value -> Result<Resolved>, fields: Props, n: nat, h: Holder, cn: map<string, Dflt>)
    requires 0 < n <= |fields.keys| && Distinct(fields.keys)
    requires HolderMatches(resolve, fields, n - 1, h, cn)
    requires resolve(Lookup(fields, fields.keys[n - 1])).Success?
    ensures var key := fields.keys[n - 1];
      var r := resolve(Lookup(fields, key)).value;
      && key !in h.entries
      && HolderMatches(resolve, fields, n, Holder(h.order + [key], h.entries[key := r.entry]),
                       if r.childNew.Some? then cn[key := r.childNew.value] else cn)
  {
    var key := fields.keys[n - 1];
    var r := resolve(Lookup(fields, key)).value;
    assert key !in fields.keys[..n - 1] by {
      forall j | 0 <= j < n - 1 ensures fields.keys[j] != key { }
    }
    HolderOkAdd(h, key, r.entry);
    assert fields.keys[..n] == fields.keys[..n - 1] + [key];
    var h1 := Holder(h.order + [key], h.entries[key := r.entry]);
    var cn1 := if r.childNew.Some? then cn[key := r.childNew.value] else cn;
    forall k | k in cn1 ensures k in fields.keys[..n] {
      PrefixIn(fields.keys, n, k);
    }
    forall i | 0 <= i < n
      ensures KeyMatches(resolve, fields.keys[i], Lookup(fields, fields.keys[i]), h1, cn1)
    {
      if i < n - 1 {
        assert fields.keys[i] != key;
        assert KeyMatches(resolve, fields.keys[i], Lookup(fields, fields.keys[i]), h, cn);
      }
    }
  }

  lemma {:induction false} SetupMatches(errs: KeyErrFn, resolve: Value -> Result<Resolved>, fields: Props, n: nat)
    requires n <= |fields.keys| && Distinct(fields.keys)
    requires SetupUpTo(errs, resolve, fields, n).Success?
    ensures var s := SetupUpTo(errs, resolve, fields, n).value;
      HolderMatches(resolve, fields, n, s.holder, s.childNew)
  {
    if n > 0 {
      SetupResolvedAll(errs, resolve, fields, n);
      SetupMatches(errs, resolve, fields, n - 1);
      var s0 := SetupUpTo(errs, resolve, fields, n - 1).value;
      HolderMatchesStep(resolve, fields, n, s0.holder, s0.childNew);
      var key := fields.keys[n - 1];
      var r := resolve(Lookup(fields, key)).value;
      assert SetupUpTo(errs, resolve, fields, n).value == AddKey(errs, s0, key, r);
    }
  }

  /**
    The holder lists the schema keys in order, each with the entry its
    property resolves to; nested schemas, and only they, get a child `new`.
   */
  lemma SetupHolder(errs: KeyErrFn, resolve: Value -> Result<Resolved>, fields: Props, n: nat)
    requires n <= |fields.keys| && Distinct(fields.keys)
    requires SetupUpTo(errs, resolve, fields, n).Success?
    ensures forall i :: 0 <= i < n ==> resolve(Lookup(fields, fields.keys[i])).Success?
    ensures HolderOk(SetupUpTo(errs, resolve, fields, n).value.holder)
    ensures SetupUpTo(errs, resolve, fields, n).value.holder.order == fields.keys[..n]
    ensures forall i :: 0 <= i < n ==>
      SetupUpTo(errs, resolve, fields, n).value.holder.entries[fields.keys[i]]
      == resolve(Lookup(fields, fields.keys[i])).value.entry
    ensures forall k :: k in SetupUpTo(errs, resolve, fields, n).value.childNew ==> k in fields.keys[..n]
    ensures forall i :: 0 <= i < n ==>
      (fields.keys[i] in SetupUpTo(errs, resolve, fields, n).value.childNew
       <==> resolve(Lookup(fields, fields.keys[i])).value.childNew.Some?)
  {
    SetupMatches(errs, resolve, fields, n);
    var s := SetupUpTo(errs, resolve, fields, n).value;
    forall i | 0 <= i < n
      ensures KeyMatches(resolve, fields.keys[i], Lookup(fields, fields.keys[i]), s.holder, s.childNew)
    {
    }
  }

  /** No setup error at all exactly when every key is recognised and its default passes. */
  lemma {:induction false} SetupClean(ctx: Ctx, resolve: Value -> Result<Resolved>, fields: Props, schemaId: Option<string>, n: nat)
    requires n <= |fields.keys|
    requires SetupUpTo(KeyErrorsOf(ctx, schemaId), resolve, fields, n).Success?
    ensures SetupUpTo(KeyErrorsOf(ctx, schemaId), resolve, fields, n).value.errors == [] <==>
      forall i :: 0 <= i < n ==>
        var r := resolve(Lookup(fields, fields.keys[i]));
        r.Success? && r.value.recognised && DefaultOk(ctx, r.value)
  {
    if n > 0 {
      var errs := KeyErrorsOf(ctx, schemaId);
      SetupClean(ctx, resolve, fields, schemaId, n - 1);
      var s0 := SetupUpTo(errs, resolve, fields, n - 1).value;
      var key := fields.keys[n - 1];
      var r := resolve(Lookup(fields, key)).value;
      KeyErrorsShape(ctx, schemaId, key, r);
      assert SetupUpTo(errs, resolve, fields, n).value.errors == s0.errors + KeyErrors(ctx, schemaId, key, r);
    }
  }
}
