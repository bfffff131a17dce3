/** Schema options and their normalisation (`_processOptions`). */
module Options {
  import opened Wrappers

  datatype Safety = Pass | Filter | Strict

  /** The `init` option: `true`, `false` or `null`. */
  datatype InitVal = InitBool(b: bool) | InitNull

  /** The options a schema is created with; `None` is a property left undefined. */
  datatype OptionsArg = OptionsArg(
    optional: Option<bool>,
    nullable: Option<bool>,
    nullish: Option<bool>,
    init: Option<InitVal>,
    id: Option<string>,
    safety: Option<Safety>)

  datatype FullOptions = FullOptions(
    optional: bool,
    nullable: bool,
    init: InitVal,
    schemaId: Option<string>,
    safety: Safety)

  const DefaultOptions := FullOptions(false, false, InitBool(true), None, Filter)

  /** The normalised options, defined field by field. */
  function OptionsSpec(options: Option<OptionsArg>): (r: FullOptions)
    ensures options.None? ==> r == DefaultOptions
    ensures options.Some? && options.value.init.Some? ==> r.init == options.value.init.value
    ensures options.None? || options.value.init.None? ==> r.init == InitBool(true)
    ensures options.Some? && options.value.safety.Some? ==> r.safety == options.value.safety.value
    ensures options.None? || options.value.safety.None? ==> r.safety == Filter
    ensures r.schemaId.Some? <==> options.Some? && options.value.id.Some? && options.value.id.value != ""
    ensures r.schemaId.Some? ==> r.schemaId == options.value.id
    ensures options.Some? && options.value.nullish.Some? ==>
      r.optional == options.value.nullish.value && r.nullable == options.value.nullish.value
    ensures options.Some? && options.value.nullish.None? ==>
      r.optional == options.value.optional.GetOr(false) && r.nullable == options.value.nullable.GetOr(false)
  {
    match options
    case None => DefaultOptions
    case Some(o) =>
      FullOptions(
        optional := if o.nullish.Some? then o.nullish.value else o.optional.GetOr(false),
        nullable := if o.nullish.Some? then o.nullish.value else o.nullable.GetOr(false),
        init := o.init.GetOr(InitBool(true)),
        schemaId := if o.id.Some? && o.id.value != "" then o.id else None,
        safety := o.safety.GetOr(Filter))
  }

  /** `_processOptions`: starts from the defaults and overwrites what is given, in source order. */
  method ProcessOptions(options: Option<OptionsArg>) returns (retVal: FullOptions)
    ensures retVal == OptionsSpec(options)
  {
    retVal := DefaultOptions;
    if options.None? {
      return;
    }
    var o := options.value;
    if o.init.Some? {
      retVal := retVal.(init := o.init.value);
    }
    if o.id.Some? && o.id.value != "" {
      retVal := retVal.(schemaId := o.id);
    }
    if o.safety.Some? {
      retVal := retVal.(safety := o.safety.value);
    }
    if o.optional.Some? {
      retVal := retVal.(optional := o.optional.value);
    }
    if o.nullable.Some? {
      retVal := retVal.(nullable := o.nullable.value);
    }
    if o.nullish.Some? {
      retVal := retVal.(optional := o.nullish.value, nullable := o.nullish.value);
    }
  }

  /**
    The condition of the creation-time check: not optional while `init` is
    `false` (an `init` left undefined is replaced by `true` beforehand).
   */
  predicate InitIllegal(o: FullOptions) {
    !o.optional && o.init == InitBool(false)
  }

  /** The check never consults `nullable`, and `init: null` passes it. */
  lemma InitCheckIgnoresNullable(o: FullOptions, nullable: bool)
    ensures InitIllegal(o) == InitIllegal(o.(nullable := nullable))
    ensures o.init == InitNull ==> !InitIllegal(o)
  {
  }
}
