/** The plugin's options: the documented defaults, the merge of the caller's
    options over them (`Object.assign`), the checks `validateOptions` makes,
    and the typed view of the merged options that the relation engine reads. */
module PluginOptions {
  import opened Js

  /** A plain options object as the caller writes it in the site configuration. */
  type RawOptions = map<string, Value>

  /** `options[key]`: a key the object does not have reads as undefined. */
  function Lookup(o: RawOptions, key: string): Value
  {
    if key in o then o[key] else Undefined
  }

  /** `RecommenderPlugin.defaultOptions()`. Every default bound lies in its
      checked range, and the collection and the field have no default: they
      are the options the caller must supply. */
  function DefaultOptions(): (r: RawOptions)
    ensures RangesHold(r)
    ensures !Truthy(Lookup(r, "typeName")) && !Truthy(Lookup(r, "field"))
    ensures !Truthy(Lookup(r, "referenceTypeName")) && !Truthy(Lookup(r, "referenceField"))
  {
    map[
      "enabled" := Bool(true),
      "typeName" := Undefined,
      "referenceTypeName" := Undefined,
      "field" := Undefined,
      "referenceField" := Undefined,
      "relatedFieldName" := Str("related"),
      "referenceRelatedFieldName" := Str("related"),
      "minScore" := Num(Finite(0.01)),
      "maxScore" := Num(Finite(1.0)),
      "maxRelations" := Num(Finite(10.0)),
      "minRelations" := Num(Finite(3.0)),
      "fillWithRandom" := Bool(false),
      "caseSensitive" := Bool(false),
      "debug" := Bool(false)
    ]
  }

  /** `Object.assign(defaultOptions(), options)`: every key the caller supplied
      (even with the value undefined) wins over the default. */
  function Merge(options: RawOptions): (m: RawOptions)
    ensures m.Keys == DefaultOptions().Keys + options.Keys
    ensures forall k :: k in options ==> Lookup(m, k) == options[k]
    ensures forall k :: k !in options ==> Lookup(m, k) == Lookup(DefaultOptions(), k)
  {
    DefaultOptions() + options
  }

  /** The documented default flags reach every flag the caller left out. */
  lemma MergeDefaultFlags(options: RawOptions)
    ensures "enabled" !in options ==> Lookup(Merge(options), "enabled") == Bool(true)
    ensures "fillWithRandom" !in options ==> Lookup(Merge(options), "fillWithRandom") == Bool(false)
    ensures "caseSensitive" !in options ==> Lookup(Merge(options), "caseSensitive") == Bool(false)
    ensures "debug" !in options ==> Lookup(Merge(options), "debug") == Bool(false)
  {
  }

  /** The documented default field names reach every one the caller left out. */
  lemma MergeDefaultFieldNames(options: RawOptions)
    ensures "relatedFieldName" !in options ==> Lookup(Merge(options), "relatedFieldName") == Str("related")
    ensures "referenceRelatedFieldName" !in options ==> Lookup(Merge(options), "referenceRelatedFieldName") == Str("related")
  {
  }

  /** The documented default bounds reach every bound the caller left out. */
  lemma MergeDefaultBounds(options: RawOptions)
    ensures "minScore" !in options ==> Lookup(Merge(options), "minScore") == Num(Finite(0.01))
    ensures "maxScore" !in options ==> Lookup(Merge(options), "maxScore") == Num(Finite(1.0))
    ensures "maxRelations" !in options ==> Lookup(Merge(options), "maxRelations") == Num(Finite(10.0))
    ensures "minRelations" !in options ==> Lookup(Merge(options), "minRelations") == Num(Finite(3.0))
  {
  }

  /** Why `validateOptions` throws. */
  datatype ConfigError =
    | OptionsUndefined
    | TypeNameMissing
    | FieldMissing
    | ReferenceFieldMissing
    | OutOfRange(key: string)

  /** One numeric range check: `!options[key] && !_.inRange(options[key], 0, end)`. */
  predicate RangeFails(o: RawOptions, key: string, end: real)
    requires 0.0 < end
  {
    !Truthy(Lookup(o, key)) && !InRange(Lookup(o, key), 0.0, end)
  }

  predicate RangesHold(o: RawOptions)
  {
    && !RangeFails(o, "minScore", 1.0)
    && !RangeFails(o, "maxScore", 1.0)
    && !RangeFails(o, "maxRelations", 100.0)
    && !RangeFails(o, "minRelations", 100.0)
  }

  /** `validateOptions(options)`; `None` stands for an options argument that is undefined.
      The checks run in source order and the first one that fires is the error. */
  function ValidateOptions(options: Option<RawOptions>): (r: Outcome<ConfigError>)
    ensures r == Fail(OptionsUndefined) <==> options.None?
    ensures options.Some? ==> (r == Fail(TypeNameMissing) <==> !Truthy(Lookup(options.value, "typeName")))
    ensures r == Fail(FieldMissing) <==>
              options.Some? && Truthy(Lookup(options.value, "typeName")) && !Truthy(Lookup(options.value, "field"))
    ensures r.Pass? <==>
              options.Some? && Truthy(Lookup(options.value, "typeName")) && Truthy(Lookup(options.value, "field"))
              && RangesHold(options.value)
  {
    if options.None? then Fail(OptionsUndefined)
    else
      var o := options.value;
      if !Truthy(Lookup(o, "typeName")) then Fail(TypeNameMissing)
      else if !Truthy(Lookup(o, "field")) then Fail(FieldMissing)
      else if Truthy(Lookup(o, "typeName")) && !Truthy(Lookup(o, "field")) then Fail(ReferenceFieldMissing)
      else if RangeFails(o, "minScore", 1.0) then Fail(OutOfRange("minScore"))
      else if RangeFails(o, "maxScore", 1.0) then Fail(OutOfRange("maxScore"))
      else if RangeFails(o, "maxRelations", 100.0) then Fail(OutOfRange("maxRelations"))
      else if RangeFails(o, "minRelations", 100.0) then Fail(OutOfRange("minRelations"))
      else Pass
  }

  /** The reference-field check repeats the field check it follows, so it never
      fires, and a reference collection without a reference field is accepted. */
  lemma ReferenceFieldNeverChecked(options: Option<RawOptions>)
    ensures ValidateOptions(options) != Fail(ReferenceFieldMissing)
    ensures options.Some? && Truthy(Lookup(options.value, "referenceTypeName"))
            && !Truthy(Lookup(options.value, "referenceField"))
            && Truthy(Lookup(options.value, "typeName")) && Truthy(Lookup(options.value, "field"))
            && RangesHold(options.value)
            ==> ValidateOptions(options) == Pass
  {
  }

  /** A range error is only ever raised for a falsy value, and among the falsy
      values exactly undefined and NaN are rejected: every truthy value passes,
      however far out of range it is. */
  lemma RangeCheckOnlyFalsy(o: RawOptions, key: string, end: real)
    requires 0.0 < end
    ensures RangeFails(o, key, end) <==> Lookup(o, key) == Undefined || Lookup(o, key) == Num(NaN)
  {
    if !Truthy(Lookup(o, key)) {
      FalsyInRange(Lookup(o, key), end);
    }
  }

  /** Validation looks at the caller's options before the defaults are merged
      in, so leaving out a numeric option is rejected even though it has a
      documented default. */
  lemma OmittedMinScoreRejected(o: RawOptions)
    requires Truthy(Lookup(o, "typeName")) && Truthy(Lookup(o, "field"))
    requires "minScore" !in o
    ensures ValidateOptions(Some(o)) == Fail(OutOfRange("minScore"))
  {
    RangeCheckOnlyFalsy(o, "minScore", 1.0);
  }

  lemma OmittedMinRelationsRejected(o: RawOptions)
    requires Truthy(Lookup(o, "typeName")) && Truthy(Lookup(o, "field"))
    requires !RangeFails(o, "minScore", 1.0) && !RangeFails(o, "maxScore", 1.0)
    requires !RangeFails(o, "maxRelations", 100.0)
    requires "minRelations" !in o
    ensures ValidateOptions(Some(o)) == Fail(OutOfRange("minRelations"))
  {
    RangeCheckOnlyFalsy(o, "minRelations", 100.0);
  }

  /** A truthy out-of-range value such as minScore = 5 is accepted. */
  lemma TruthyOutOfRangeAccepted(o: RawOptions)
    requires Truthy(Lookup(o, "typeName")) && Truthy(Lookup(o, "field"))
    requires Lookup(o, "minScore") == Num(Finite(5.0))
    requires Truthy(Lookup(o, "maxScore")) && Truthy(Lookup(o, "maxRelations"))
    requires Truthy(Lookup(o, "minRelations"))
    ensures ValidateOptions(Some(o)) == Pass
  {
  }

  /** The typed view of the merged options that the rest of the plugin reads. */
  datatype Settings = Settings(
    enabled: bool,
    typeName: string,
    /** `referenceTypeName` when it is truthy */
    reference: Option<string>,
    field: string,
    referenceField: string,
    relatedFieldName: string,
    referenceRelatedFieldName: string,
    minScore: Value,
    maxRelations: Value,
    minRelations: Number,
    fillWithRandom: bool,
    caseSensitive: bool,
    debug: bool)

  /** How each option is consumed: flags by truthiness, names as property keys,
      `minRelations` through numeric comparison and subtraction. */
  function SettingsOf(m: RawOptions): (s: Settings)
    ensures s.reference.Some? <==> Truthy(Lookup(m, "referenceTypeName"))
    ensures s.fillWithRandom <==> Truthy(Lookup(m, "fillWithRandom"))
  {
    var ref := Lookup(m, "referenceTypeName");
    Settings(
      Truthy(Lookup(m, "enabled")),
      Key(Lookup(m, "typeName")),
      if Truthy(ref) then Some(Key(ref)) else None,
      Key(Lookup(m, "field")),
      Key(Lookup(m, "referenceField")),
      Key(Lookup(m, "relatedFieldName")),
      Key(Lookup(m, "referenceRelatedFieldName")),
      Lookup(m, "minScore"),
      Lookup(m, "maxRelations"),
      ToNumber(Lookup(m, "minRelations")),
      Truthy(Lookup(m, "fillWithRandom")),
      Truthy(Lookup(m, "caseSensitive")),
      Truthy(Lookup(m, "debug")))
  }
}
