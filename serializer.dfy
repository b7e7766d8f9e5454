/**
 * The key-order writers of the Schema Object: `SerializeInternal` (OpenAPI 3.0
 * and 3.1), `WriteJsonSchemaKeywords` (the block written for 3.1 only),
 * `SerializeAsV2` (OpenAPI 2.0) and `WriteFormatProperty`.
 *
 * `V3Members`, `JsonSchemaKeywordMembers` and `V2Members` specify the events
 * one schema object consists of, in writing order; the methods build each
 * object in a writer of its own and are proved to produce exactly those
 * events. The lemmas state which keys each version can emit and the 2.0
 * special cases.
 */
module SchemaSerializer {
  import opened Wrappers
  import opened JsonWriter
  import opened TypeAlgebra
  import opened SchemaModel
  import opened TypeProperty
  import K = OpenApiConstants

  // ---------------------------------------------------------------------------
  // Leaf values
  // ---------------------------------------------------------------------------

  /** JSON nodes written one by one with `WriteAny`. */
  function NodeValues(ns: seq<JsonNode>): (vs: seq<Value>)
    ensures |vs| == |ns|
    ensures forall i :: 0 <= i < |ns| ==> vs[i] == JNode(ns[i])
  {
    seq(|ns|, i requires 0 <= i < |ns| => JNode(ns[i]))
  }

  /** An optional JSON node written with `WriteAny`. */
  function NodeValue(n: Option<JsonNode>): Option<Value> {
    if n.Some? then Some(JNode(n.value)) else None
  }

  /** The entries of a name-to-node dictionary, each value written with `WriteAny`. */
  function NodeMembers(es: seq<(string, JsonNode)>): (ms: seq<Member>)
    ensures |ms| == |es|
    ensures forall i :: 0 <= i < |es| ==> ms[i] == Member(es[i].0, JNode(es[i].1))
  {
    seq(|es|, i requires 0 <= i < |es| => Member(es[i].0, JNode(es[i].1)))
  }

  /** The `$vocabulary` entries, each flag written with `WriteValue`. */
  function VocabularyMembers(es: seq<(string, bool)>): (ms: seq<Member>)
    ensures |ms| == |es|
    ensures forall i :: 0 <= i < |es| ==> ms[i] == Member(es[i].0, JBool(es[i].1))
  {
    seq(|es|, i requires 0 <= i < |es| => Member(es[i].0, JBool(es[i].1)))
  }

  /** The discriminator object, written by its own serializer for version `v`. */
  function DiscriminatorValue(d: Option<Discriminator>, v: SpecVersion): Option<Value> {
    if d.Some? then Some(JElement(d.value.element, v)) else None
  }

  /** `Discriminator?.PropertyName`, the only part of the discriminator 2.0 output keeps. */
  function DiscriminatorName(d: Option<Discriminator>): Option<string> {
    if d.Some? then d.value.propertyName else None
  }

  /** An element written by its own serializer for version `v`. */
  function ElementValue(e: Option<Element>, v: SpecVersion): Option<Value> {
    if e.Some? then Some(JElement(e.value, v)) else None
  }

  // ---------------------------------------------------------------------------
  // Blocks common to all versions
  // ---------------------------------------------------------------------------

  /** The validation keywords every version writes in the same order: numeric, string, array and object bounds, `required` and `enum`. */
  function ConstraintMembers(s: Schema): seq<Member>
  {
    DecimalProperty(K.MultipleOf, s.multipleOf)
    + DecimalProperty(K.Maximum, s.maximum)
    + OptionalFlagProperty(K.ExclusiveMaximum, s.exclusiveMaximum)
    + DecimalProperty(K.Minimum, s.minimum)
    + OptionalFlagProperty(K.ExclusiveMinimum, s.exclusiveMinimum)
    + IntProperty(K.MaxLength, s.maxLength)
    + IntProperty(K.MinLength, s.minLength)
    + StringProperty(K.Pattern, s.pattern)
    + IntProperty(K.MaxItems, s.maxItems)
    + IntProperty(K.MinItems, s.minItems)
    + OptionalFlagProperty(K.UniqueItems, s.uniqueItems)
    + IntProperty(K.MaxProperties, s.maxProperties)
    + IntProperty(K.MinProperties, s.minProperties)
    + OptionalCollection(K.Required, StringValues(s.required))
    + OptionalCollection(K.Enum, NodeValues(s.enumValues))
  }

  // ---------------------------------------------------------------------------
  // OpenAPI 3.0 and 3.1
  // ---------------------------------------------------------------------------

  /** The events of `WriteJsonSchemaKeywords`; nested tables are written as 3.1. */
  function JsonSchemaKeywordMembers(s: Schema): seq<Member>
    decreases s, 1
  {
    StringProperty(K.Id, s.id)
    + StringProperty(K.DollarSchema, s.dollarSchema)
    + StringProperty(K.Comment, s.comment)
    + StringProperty(K.Const, s.constValue)
    + OptionalMap(K.Vocabulary, VocabularyMembers(s.vocabulary))
    + OptionalMap(K.Defs, PropertyMembers(s.definitions, OpenApi3_1))
    + StringProperty(K.DynamicRef, s.dynamicRef)
    + StringProperty(K.DynamicAnchor, s.dynamicAnchor)
    + DecimalProperty(K.V31ExclusiveMaximum, s.v31ExclusiveMaximum)
    + DecimalProperty(K.V31ExclusiveMinimum, s.v31ExclusiveMinimum)
    + FlagProperty(K.UnevaluatedProperties, s.unevaluatedProperties, false)
    + OptionalCollection(K.Examples, NodeValues(s.examples))
    + OptionalMap(K.PatternProperties, PropertyMembers(s.patternProperties, OpenApi3_1))
  }

  /** The subschemas of `SerializeInternal`, each written for the same version `v`; a disallowed `additionalProperties` is written as `false`. */
  function V3ChildMembers(s: Schema, v: SpecVersion): seq<Member>
    decreases s, 1
  {
    OptionalCollection(K.AllOf, SchemaValues(s.allOf, v))
    + OptionalCollection(K.AnyOf, SchemaValues(s.anyOf, v))
    + OptionalCollection(K.OneOf, SchemaValues(s.oneOf, v))
    + OptionalObject(K.Not, SchemaValue(s.not, v))
    + OptionalObject(K.Items, SchemaValue(s.items, v))
    + OptionalMap(K.Properties, PropertyMembers(s.properties, v))
    + (if s.additionalPropertiesAllowed then OptionalObject(K.AdditionalProperties, SchemaValue(s.additionalProperties, v))
       else BoolProperty(K.AdditionalProperties, false))
  }

  /** The annotations, extensions and unrecognized keywords that close a 3.x schema object. */
  function V3AnnotationMembers(s: Schema, v: SpecVersion): seq<Member>
  {
    StringProperty(K.Description, s.description)
    + StringProperty(K.Format, s.format)
    + OptionalObject(K.Default, NodeValue(s.default))
    + OptionalObject(K.Discriminator, DiscriminatorValue(s.discriminator, v))
    + FlagProperty(K.ReadOnly, s.readOnly, false)
    + FlagProperty(K.WriteOnly, s.writeOnly, false)
    + OptionalObject(K.Xml, ElementValue(s.xml, OpenApi2_0))
    + OptionalObject(K.ExternalDocs, ElementValue(s.externalDocs, v))
    + OptionalObject(K.Example, NodeValue(s.example))
    + FlagProperty(K.Deprecated, s.deprecated, false)
    + ExtensionMembers(s.extensions)
    + OptionalMap(K.UnrecognizedKeywords, NodeMembers(s.unrecognizedKeywords))
  }

  /** The events of the object `SerializeInternal(writer, v, ...)` writes, for `v` 3.0 or 3.1. */
  function V3Members(s: Schema, v: SpecVersion): seq<Member>
    decreases s, 2
  {
    (if v == OpenApi3_1 then JsonSchemaKeywordMembers(s) else [])
    + StringProperty(K.Title, s.title)
    + ConstraintMembers(s)
    + TypeMembers(s, v)
    + V3ChildMembers(s, v)
    + V3AnnotationMembers(s, v)
  }

  /** An optional child schema, written for version `v`. */
  function SchemaValue(o: Option<Schema>, v: SpecVersion): Option<Value>
    decreases o
  {
    if o.Some? then Some(JObject(V3Members(o.value, v))) else None
  }

  /** A list of child schemas, each written for version `v`. */
  function SchemaValues(xs: seq<Schema>, v: SpecVersion): seq<Value>
    decreases xs
  {
    if xs == [] then []
    else SchemaValues(xs[..|xs| - 1], v) + [JObject(V3Members(xs[|xs| - 1], v))]
  }

  /** A name-to-schema dictionary, each schema written for version `v`. */
  function PropertyMembers(ps: seq<Property>, v: SpecVersion): seq<Member>
    decreases ps
  {
    if ps == [] then []
    else PropertyMembers(ps[..|ps| - 1], v)
         + [Member(ps[|ps| - 1].name, JObject(V3Members(ps[|ps| - 1].schema, v)))]
  }

  // ---------------------------------------------------------------------------
  // OpenAPI 2.0
  // ---------------------------------------------------------------------------

  /** A `Format` that `string.IsNullOrEmpty` rejects neither as null nor as empty. */
  predicate HasFormat(s: Schema) {
    s.format.Some? && s.format.value != ""
  }

  /** `FirstOrDefault(x => !string.IsNullOrEmpty(x.Format))?.Format`. */
  function FirstFormat(xs: seq<Schema>): (r: Option<string>)
    ensures r.None? <==> forall i :: 0 <= i < |xs| ==> !HasFormat(xs[i])
    ensures r.Some? ==> exists i :: 0 <= i < |xs| && HasFormat(xs[i]) && r == xs[i].format
                                    && forall j :: 0 <= j < i ==> !HasFormat(xs[j])
    decreases |xs|
  {
    if xs == [] then None
    else if HasFormat(xs[0]) then xs[0].format
    else
      var r := FirstFormat(xs[1..]);
      assert forall i :: 0 < i < |xs| ==> xs[i] == xs[1..][i - 1];
      if r.Some? then
        var i :| 0 <= i < |xs| - 1 && HasFormat(xs[1..][i]) && r == xs[1..][i].format
                 && forall j :: 0 <= j < i ==> !HasFormat(xs[1..][j]);
        assert HasFormat(xs[i + 1]) && r == xs[i + 1].format;
        r
      else r
  }

  /** `formatToWrite` of `WriteFormatProperty`. */
  function FormatToWrite(s: Schema): (r: Option<string>)
    ensures HasFormat(s) ==> r == s.format
    ensures !HasFormat(s) && FirstFormat(s.allOf).Some? ==> r == FirstFormat(s.allOf)
    ensures !HasFormat(s) && FirstFormat(s.allOf).None? && FirstFormat(s.anyOf).Some? ==> r == FirstFormat(s.anyOf)
    ensures !HasFormat(s) && FirstFormat(s.allOf).None? && FirstFormat(s.anyOf).None? ==> r == FirstFormat(s.oneOf)
    ensures r.Some? ==> r.value != ""
  {
    if HasFormat(s) then s.format
    else if FirstFormat(s.allOf).Some? then FirstFormat(s.allOf)
    else if FirstFormat(s.anyOf).Some? then FirstFormat(s.anyOf)
    else FirstFormat(s.oneOf)
  }

  /** `parentRequiredProperties.Contains(propertyName)`; a null name is never contained. */
  predicate RequiredByParent(parentRequired: seq<string>, propertyName: Option<string>) {
    propertyName.Some? && propertyName.value in parentRequired
  }

  /** The keywords `SerializeAsV2` writes before the validation block. */
  function V2HeadMembers(s: Schema): seq<Member>
  {
    TypeMembers(s, OpenApi2_0)
    + StringProperty(K.Description, s.description)
    + StringProperty(K.Format, FormatToWrite(s))
    + StringProperty(K.Title, s.title)
    + OptionalObject(K.Default, NodeValue(s.default))
  }

  /** The subschemas of `SerializeAsV2`, with the `allOf` downgrade of `anyOf` and `oneOf`. */
  function V2ChildMembers(s: Schema): seq<Member>
    decreases s, 1
  {
    OptionalObject(K.Items, V2Value(s.items))
    + OptionalCollection(K.AllOf, V2Values(s.allOf))
    + AllOfDowngrade(s)
    + OptionalMap(K.Properties, V2PropertyMembers(s.properties, s.required))
    + (if s.additionalPropertiesAllowed then OptionalObject(K.AdditionalProperties, V2Value(s.additionalProperties))
       else BoolProperty(K.AdditionalProperties, false))
  }

  /** The keywords that close a 2.0 schema object; `readOnly` is left out for a property its parent requires. */
  function V2AnnotationMembers(s: Schema, parentRequired: seq<string>, propertyName: Option<string>): seq<Member>
  {
    StringProperty(K.Discriminator, DiscriminatorName(s.discriminator))
    + (if !RequiredByParent(parentRequired, propertyName) then FlagProperty(K.ReadOnly, s.readOnly, false) else [])
    + OptionalObject(K.Xml, ElementValue(s.xml, OpenApi2_0))
    + OptionalObject(K.ExternalDocs, ElementValue(s.externalDocs, OpenApi2_0))
    + OptionalObject(K.Example, NodeValue(s.example))
    + ExtensionMembers(s.extensions)
  }

  /** The events of the object `SerializeAsV2(writer, parentRequiredProperties, propertyName)` writes. */
  function V2Members(s: Schema, parentRequired: seq<string>, propertyName: Option<string>): seq<Member>
    decreases s, 2
  {
    V2HeadMembers(s)
    + ConstraintMembers(s)
    + V2ChildMembers(s)
    + V2AnnotationMembers(s, parentRequired, propertyName)
  }

  /**
   * The `allOf` written in place of `anyOf` and `oneOf` when there is no
   * `allOf`: the first `anyOf` element, and the first `oneOf` element only
   * when `anyOf` is empty.
   */
  function AllOfDowngrade(s: Schema): seq<Member>
    decreases s, 0
  {
    if s.allOf == [] then
      OptionalCollection(K.AllOf, FirstV2Value(s.anyOf))
      + (if s.anyOf == [] then OptionalCollection(K.AllOf, FirstV2Value(s.oneOf)) else [])
    else []
  }

  /** An optional child schema written by the public `SerializeAsV2(writer)`. */
  function V2Value(o: Option<Schema>): Option<Value>
    decreases o
  {
    if o.Some? then Some(JObject(V2Members(o.value, [], None))) else None
  }

  /** A list of child schemas written by the public `SerializeAsV2(writer)`. */
  function V2Values(xs: seq<Schema>): seq<Value>
    decreases xs
  {
    if xs == [] then []
    else V2Values(xs[..|xs| - 1]) + [JObject(V2Members(xs[|xs| - 1], [], None))]
  }

  /** `Take(1)` of a child list, written by the public `SerializeAsV2(writer)`. */
  function FirstV2Value(xs: seq<Schema>): seq<Value>
    decreases xs
  {
    if xs == [] then [] else [JObject(V2Members(xs[0], [], None))]
  }

  /** The `properties` table: each property is written with the parent's `Required` set and its own name. */
  function V2PropertyMembers(ps: seq<Property>, required: seq<string>): seq<Member>
    decreases ps
  {
    if ps == [] then []
    else V2PropertyMembers(ps[..|ps| - 1], required)
         + [Member(ps[|ps| - 1].name, JObject(V2Members(ps[|ps| - 1].schema, required, Some(ps[|ps| - 1].name))))]
  }

  // ---------------------------------------------------------------------------
  // The writers
  // ---------------------------------------------------------------------------

  /** The validation block, shared by `SerializeInternal` and `SerializeAsV2`. */
  method WriteConstraints(s: Schema, w: ObjectWriter)
    modifies w
    ensures w.members == old(w.members) + ConstraintMembers(s)
  {
    ghost var m0 := w.members;
    w.WriteDecimalProperty(K.MultipleOf, s.multipleOf);
    ghost var acc := DecimalProperty(K.MultipleOf, s.multipleOf);
    w.WriteDecimalProperty(K.Maximum, s.maximum);
    AppendAssoc(m0, acc, DecimalProperty(K.Maximum, s.maximum));
    acc := acc + DecimalProperty(K.Maximum, s.maximum);
    w.WriteOptionalFlagProperty(K.ExclusiveMaximum, s.exclusiveMaximum);
    AppendAssoc(m0, acc, OptionalFlagProperty(K.ExclusiveMaximum, s.exclusiveMaximum));
    acc := acc + OptionalFlagProperty(K.ExclusiveMaximum, s.exclusiveMaximum);
    w.WriteDecimalProperty(K.Minimum, s.minimum);
    AppendAssoc(m0, acc, DecimalProperty(K.Minimum, s.minimum));
    acc := acc + DecimalProperty(K.Minimum, s.minimum);
    w.WriteOptionalFlagProperty(K.ExclusiveMinimum, s.exclusiveMinimum);
    AppendAssoc(m0, acc, OptionalFlagProperty(K.ExclusiveMinimum, s.exclusiveMinimum));
    acc := acc + OptionalFlagProperty(K.ExclusiveMinimum, s.exclusiveMinimum);
    w.WriteIntProperty(K.MaxLength, s.maxLength);
    AppendAssoc(m0, acc, IntProperty(K.MaxLength, s.maxLength));
    acc := acc + IntProperty(K.MaxLength, s.maxLength);
    w.WriteIntProperty(K.MinLength, s.minLength);
    AppendAssoc(m0, acc, IntProperty(K.MinLength, s.minLength));
    acc := acc + IntProperty(K.MinLength, s.minLength);
    w.WriteStringProperty(K.Pattern, s.pattern);
    AppendAssoc(m0, acc, StringProperty(K.Pattern, s.pattern));
    acc := acc + StringProperty(K.Pattern, s.pattern);
    w.WriteIntProperty(K.MaxItems, s.maxItems);
    AppendAssoc(m0, acc, IntProperty(K.MaxItems, s.maxItems));
    acc := acc + IntProperty(K.MaxItems, s.maxItems);
    w.WriteIntProperty(K.MinItems, s.minItems);
    AppendAssoc(m0, acc, IntProperty(K.MinItems, s.minItems));
    acc := acc + IntProperty(K.MinItems, s.minItems);
    w.WriteOptionalFlagProperty(K.UniqueItems, s.uniqueItems);
    AppendAssoc(m0, acc, OptionalFlagProperty(K.UniqueItems, s.uniqueItems));
    acc := acc + OptionalFlagProperty(K.UniqueItems, s.uniqueItems);
    w.WriteIntProperty(K.MaxProperties, s.maxProperties);
    AppendAssoc(m0, acc, IntProperty(K.MaxProperties, s.maxProperties));
    acc := acc + IntProperty(K.MaxProperties, s.maxProperties);
    w.WriteIntProperty(K.MinProperties, s.minProperties);
    AppendAssoc(m0, acc, IntProperty(K.MinProperties, s.minProperties));
    acc := acc + IntProperty(K.MinProperties, s.minProperties);
    w.WriteOptionalCollection(K.Required, StringValues(s.required));
    AppendAssoc(m0, acc, OptionalCollection(K.Required, StringValues(s.required)));
    acc := acc + OptionalCollection(K.Required, StringValues(s.required));
    w.WriteOptionalCollection(K.Enum, NodeValues(s.enumValues));
    AppendAssoc(m0, acc, OptionalCollection(K.Enum, NodeValues(s.enumValues)));
    acc := acc + OptionalCollection(K.Enum, NodeValues(s.enumValues));
  }

  /** `SerializeInternal(writer, v, callback)`: one schema object for 3.0 or 3.1. */
  method SerializeInternal(s: Schema, v: SpecVersion) returns (r: Value)
    ensures r == JObject(V3Members(s, v))
    decreases s, 2
  {
    var w := new ObjectWriter();
    ghost var m0 := w.members;
    if v == OpenApi3_1 {
      WriteJsonSchemaKeywords(s, w);
    }
    ghost var acc := (if v == OpenApi3_1 then JsonSchemaKeywordMembers(s) else []);
    w.WriteStringProperty(K.Title, s.title);
    AppendAssoc(m0, acc, StringProperty(K.Title, s.title));
    acc := acc + StringProperty(K.Title, s.title);
    WriteConstraints(s, w);
    AppendAssoc(m0, acc, ConstraintMembers(s));
    acc := acc + ConstraintMembers(s);
    SerializeTypeProperty(s, w, v);
    AppendAssoc(m0, acc, TypeMembers(s, v));
    acc := acc + TypeMembers(s, v);
    WriteV3Children(s, w, v);
    AppendAssoc(m0, acc, V3ChildMembers(s, v));
    acc := acc + V3ChildMembers(s, v);
    WriteV3Annotations(s, w, v);
    AppendAssoc(m0, acc, V3AnnotationMembers(s, v));
    acc := acc + V3AnnotationMembers(s, v);
    r := JObject(w.members);
  }

  /** `WriteJsonSchemaKeywords(writer)`. */
  method WriteJsonSchemaKeywords(s: Schema, w: ObjectWriter)
    modifies w
    ensures w.members == old(w.members) + JsonSchemaKeywordMembers(s)
    decreases s, 1
  {
    ghost var m0 := w.members;
    w.WriteStringProperty(K.Id, s.id);
    ghost var acc := StringProperty(K.Id, s.id);
    w.WriteStringProperty(K.DollarSchema, s.dollarSchema);
    AppendAssoc(m0, acc, StringProperty(K.DollarSchema, s.dollarSchema));
    acc := acc + StringProperty(K.DollarSchema, s.dollarSchema);
    w.WriteStringProperty(K.Comment, s.comment);
    AppendAssoc(m0, acc, StringProperty(K.Comment, s.comment));
    acc := acc + StringProperty(K.Comment, s.comment);
    w.WriteStringProperty(K.Const, s.constValue);
    AppendAssoc(m0, acc, StringProperty(K.Const, s.constValue));
    acc := acc + StringProperty(K.Const, s.constValue);
    w.WriteOptionalMap(K.Vocabulary, VocabularyMembers(s.vocabulary));
    AppendAssoc(m0, acc, OptionalMap(K.Vocabulary, VocabularyMembers(s.vocabulary)));
    acc := acc + OptionalMap(K.Vocabulary, VocabularyMembers(s.vocabulary));
    var defs := WriteSchemaMap(s.definitions, OpenApi3_1);
    w.WriteOptionalMap(K.Defs, defs);
    AppendAssoc(m0, acc, OptionalMap(K.Defs, PropertyMembers(s.definitions, OpenApi3_1)));
    acc := acc + OptionalMap(K.Defs, PropertyMembers(s.definitions, OpenApi3_1));
    w.WriteStringProperty(K.DynamicRef, s.dynamicRef);
    AppendAssoc(m0, acc, StringProperty(K.DynamicRef, s.dynamicRef));
    acc := acc + StringProperty(K.DynamicRef, s.dynamicRef);
    w.WriteStringProperty(K.DynamicAnchor, s.dynamicAnchor);
    AppendAssoc(m0, acc, StringProperty(K.DynamicAnchor, s.dynamicAnchor));
    acc := acc + StringProperty(K.DynamicAnchor, s.dynamicAnchor);
    w.WriteDecimalProperty(K.V31ExclusiveMaximum, s.v31ExclusiveMaximum);
    AppendAssoc(m0, acc, DecimalProperty(K.V31ExclusiveMaximum, s.v31ExclusiveMaximum));
    acc := acc + DecimalProperty(K.V31ExclusiveMaximum, s.v31ExclusiveMaximum);
    w.WriteDecimalProperty(K.V31ExclusiveMinimum, s.v31ExclusiveMinimum);
    AppendAssoc(m0, acc, DecimalProperty(K.V31ExclusiveMinimum, s.v31ExclusiveMinimum));
    acc := acc + DecimalProperty(K.V31ExclusiveMinimum, s.v31ExclusiveMinimum);
    w.WriteFlagProperty(K.UnevaluatedProperties, s.unevaluatedProperties, false);
    AppendAssoc(m0, acc, FlagProperty(K.UnevaluatedProperties, s.unevaluatedProperties, false));
    acc := acc + FlagProperty(K.UnevaluatedProperties, s.unevaluatedProperties, false);
    w.WriteOptionalCollection(K.Examples, NodeValues(s.examples));
    AppendAssoc(m0, acc, OptionalCollection(K.Examples, NodeValues(s.examples)));
    acc := acc + OptionalCollection(K.Examples, NodeValues(s.examples));
    var patterns := WriteSchemaMap(s.patternProperties, OpenApi3_1);
    w.WriteOptionalMap(K.PatternProperties, patterns);
    AppendAssoc(m0, acc, OptionalMap(K.PatternProperties, PropertyMembers(s.patternProperties, OpenApi3_1)));
    acc := acc + OptionalMap(K.PatternProperties, PropertyMembers(s.patternProperties, OpenApi3_1));
  }

  /** Lines 319-349 of `SerializeInternal`. */
  method WriteV3Children(s: Schema, w: ObjectWriter, v: SpecVersion)
    modifies w
    ensures w.members == old(w.members) + V3ChildMembers(s, v)
    decreases s, 1
  {
    ghost var m0 := w.members;
    var allOf := WriteSchemaList(s.allOf, v);
    w.WriteOptionalCollection(K.AllOf, allOf);
    ghost var acc := OptionalCollection(K.AllOf, SchemaValues(s.allOf, v));
    var anyOf := WriteSchemaList(s.anyOf, v);
    w.WriteOptionalCollection(K.AnyOf, anyOf);
    AppendAssoc(m0, acc, OptionalCollection(K.AnyOf, SchemaValues(s.anyOf, v)));
    acc := acc + OptionalCollection(K.AnyOf, SchemaValues(s.anyOf, v));
    var oneOf := WriteSchemaList(s.oneOf, v);
    w.WriteOptionalCollection(K.OneOf, oneOf);
    AppendAssoc(m0, acc, OptionalCollection(K.OneOf, SchemaValues(s.oneOf, v)));
    acc := acc + OptionalCollection(K.OneOf, SchemaValues(s.oneOf, v));
    var not := WriteOptionalSchema(s.not, v);
    w.WriteOptionalObject(K.Not, not);
    AppendAssoc(m0, acc, OptionalObject(K.Not, SchemaValue(s.not, v)));
    acc := acc + OptionalObject(K.Not, SchemaValue(s.not, v));
    var items := WriteOptionalSchema(s.items, v);
    w.WriteOptionalObject(K.Items, items);
    AppendAssoc(m0, acc, OptionalObject(K.Items, SchemaValue(s.items, v)));
    acc := acc + OptionalObject(K.Items, SchemaValue(s.items, v));
    var properties := WriteSchemaMap(s.properties, v);
    w.WriteOptionalMap(K.Properties, properties);
    AppendAssoc(m0, acc, OptionalMap(K.Properties, PropertyMembers(s.properties, v)));
    acc := acc + OptionalMap(K.Properties, PropertyMembers(s.properties, v));
    if s.additionalPropertiesAllowed {
      var additional := WriteOptionalSchema(s.additionalProperties, v);
      w.WriteOptionalObject(K.AdditionalProperties, additional);
    } else {
      w.WriteBoolProperty(K.AdditionalProperties, s.additionalPropertiesAllowed);
    }
    AppendAssoc(m0, acc, (if s.additionalPropertiesAllowed then OptionalObject(K.AdditionalProperties, SchemaValue(s.additionalProperties, v))
       else BoolProperty(K.AdditionalProperties, false)));
    acc := acc + (if s.additionalPropertiesAllowed then OptionalObject(K.AdditionalProperties, SchemaValue(s.additionalProperties, v))
       else BoolProperty(K.AdditionalProperties, false));
  }

  /** Lines 351-388 of `SerializeInternal`. */
  method WriteV3Annotations(s: Schema, w: ObjectWriter, v: SpecVersion)
    modifies w
    ensures w.members == old(w.members) + V3AnnotationMembers(s, v)
  {
    ghost var m0 := w.members;
    w.WriteStringProperty(K.Description, s.description);
    ghost var acc := StringProperty(K.Description, s.description);
    w.WriteStringProperty(K.Format, s.format);
    AppendAssoc(m0, acc, StringProperty(K.Format, s.format));
    acc := acc + StringProperty(K.Format, s.format);
    w.WriteOptionalObject(K.Default, NodeValue(s.default));
    AppendAssoc(m0, acc, OptionalObject(K.Default, NodeValue(s.default)));
    acc := acc + OptionalObject(K.Default, NodeValue(s.default));
    w.WriteOptionalObject(K.Discriminator, DiscriminatorValue(s.discriminator, v));
    AppendAssoc(m0, acc, OptionalObject(K.Discriminator, DiscriminatorValue(s.discriminator, v)));
    acc := acc + OptionalObject(K.Discriminator, DiscriminatorValue(s.discriminator, v));
    w.WriteFlagProperty(K.ReadOnly, s.readOnly, false);
    AppendAssoc(m0, acc, FlagProperty(K.ReadOnly, s.readOnly, false));
    acc := acc + FlagProperty(K.ReadOnly, s.readOnly, false);
    w.WriteFlagProperty(K.WriteOnly, s.writeOnly, false);
    AppendAssoc(m0, acc, FlagProperty(K.WriteOnly, s.writeOnly, false));
    acc := acc + FlagProperty(K.WriteOnly, s.writeOnly, false);
    w.WriteOptionalObject(K.Xml, ElementValue(s.xml, OpenApi2_0));
    AppendAssoc(m0, acc, OptionalObject(K.Xml, ElementValue(s.xml, OpenApi2_0)));
    acc := acc + OptionalObject(K.Xml, ElementValue(s.xml, OpenApi2_0));
    w.WriteOptionalObject(K.ExternalDocs, ElementValue(s.externalDocs, v));
    AppendAssoc(m0, acc, OptionalObject(K.ExternalDocs, ElementValue(s.externalDocs, v)));
    acc := acc + OptionalObject(K.ExternalDocs, ElementValue(s.externalDocs, v));
    w.WriteOptionalObject(K.Example, NodeValue(s.example));
    AppendAssoc(m0, acc, OptionalObject(K.Example, NodeValue(s.example)));
    acc := acc + OptionalObject(K.Example, NodeValue(s.example));
    w.WriteFlagProperty(K.Deprecated, s.deprecated, false);
    AppendAssoc(m0, acc, FlagProperty(K.Deprecated, s.deprecated, false));
    acc := acc + FlagProperty(K.Deprecated, s.deprecated, false);
    w.WriteExtensions(s.extensions);
    AppendAssoc(m0, acc, ExtensionMembers(s.extensions));
    acc := acc + ExtensionMembers(s.extensions);
    if |s.unrecognizedKeywords| > 0 {
      w.WriteOptionalMap(K.UnrecognizedKeywords, NodeMembers(s.unrecognizedKeywords));
    }
    AppendAssoc(m0, acc, OptionalMap(K.UnrecognizedKeywords, NodeMembers(s.unrecognizedKeywords)));
    acc := acc + OptionalMap(K.UnrecognizedKeywords, NodeMembers(s.unrecognizedKeywords));
  }

  /** The callback of `WriteOptionalObject` on a child schema. */
  method WriteOptionalSchema(o: Option<Schema>, v: SpecVersion) returns (r: Option<Value>)
    ensures r == SchemaValue(o, v)
    decreases o
  {
    if o.Some? {
      var c := SerializeInternal(o.value, v);
      r := Some(c);
    } else {
      r := None;
    }
  }

  /** The callback of `WriteOptionalCollection` applied to each child schema in order. */
  method WriteSchemaList(xs: seq<Schema>, v: SpecVersion) returns (vs: seq<Value>)
    ensures vs == SchemaValues(xs, v)
    decreases xs
  {
    vs := [];
    for i := 0 to |xs|
      invariant vs == SchemaValues(xs[..i], v)
    {
      assert xs[..i + 1][..i] == xs[..i];
      var c := SerializeInternal(xs[i], v);
      vs := vs + [c];
    }
    assert xs[..|xs|] == xs;
  }

  /** The callback of `WriteOptionalMap` applied to each entry in order. */
  method WriteSchemaMap(ps: seq<Property>, v: SpecVersion) returns (ms: seq<Member>)
    ensures ms == PropertyMembers(ps, v)
    decreases ps
  {
    ms := [];
    for i := 0 to |ps|
      invariant ms == PropertyMembers(ps[..i], v)
    {
      assert ps[..i + 1][..i] == ps[..i];
      var c := SerializeInternal(ps[i].schema, v);
      ms := ms + [Member(ps[i].name, c)];
    }
    assert ps[..|ps|] == ps;
  }

  /** `SerializeAsV2(writer, parentRequiredProperties, propertyName)`: one schema object for 2.0. */
  method SerializeAsV2(s: Schema, parentRequired: seq<string>, propertyName: Option<string>) returns (r: Value)
    ensures r == JObject(V2Members(s, parentRequired, propertyName))
    decreases s, 2
  {
    var w := new ObjectWriter();
    ghost var m0 := w.members;
    WriteV2Head(s, w);
    ghost var acc := V2HeadMembers(s);
    WriteConstraints(s, w);
    AppendAssoc(m0, acc, ConstraintMembers(s));
    acc := acc + ConstraintMembers(s);
    WriteV2Children(s, w);
    AppendAssoc(m0, acc, V2ChildMembers(s));
    acc := acc + V2ChildMembers(s);
    WriteV2Annotations(s, w, parentRequired, propertyName);
    AppendAssoc(m0, acc, V2AnnotationMembers(s, parentRequired, propertyName));
    acc := acc + V2AnnotationMembers(s, parentRequired, propertyName);
    r := JObject(w.members);
  }

  /** Lines 504-517 of `SerializeAsV2`. */
  method WriteV2Head(s: Schema, w: ObjectWriter)
    modifies w
    ensures w.members == old(w.members) + V2HeadMembers(s)
  {
    ghost var m0 := w.members;
    SerializeTypeProperty(s, w, OpenApi2_0);
    ghost var acc := TypeMembers(s, OpenApi2_0);
    w.WriteStringProperty(K.Description, s.description);
    AppendAssoc(m0, acc, StringProperty(K.Description, s.description));
    acc := acc + StringProperty(K.Description, s.description);
    WriteFormatProperty(s, w);
    AppendAssoc(m0, acc, StringProperty(K.Format, FormatToWrite(s)));
    acc := acc + StringProperty(K.Format, FormatToWrite(s));
    w.WriteStringProperty(K.Title, s.title);
    AppendAssoc(m0, acc, StringProperty(K.Title, s.title));
    acc := acc + StringProperty(K.Title, s.title);
    w.WriteOptionalObject(K.Default, NodeValue(s.default));
    AppendAssoc(m0, acc, OptionalObject(K.Default, NodeValue(s.default)));
    acc := acc + OptionalObject(K.Default, NodeValue(s.default));
  }

  /** Lines 564-604 of `SerializeAsV2`. */
  method WriteV2Children(s: Schema, w: ObjectWriter)
    modifies w
    ensures w.members == old(w.members) + V2ChildMembers(s)
    decreases s, 1
  {
    ghost var m0 := w.members;
    var items := WriteOptionalSchemaV2(s.items);
    w.WriteOptionalObject(K.Items, items);
    ghost var acc := OptionalObject(K.Items, V2Value(s.items));
    var allOf := WriteSchemaListV2(s.allOf);
    w.WriteOptionalCollection(K.AllOf, allOf);
    AppendAssoc(m0, acc, OptionalCollection(K.AllOf, V2Values(s.allOf)));
    acc := acc + OptionalCollection(K.AllOf, V2Values(s.allOf));
    WriteAllOfDowngrade(s, w);
    AppendAssoc(m0, acc, AllOfDowngrade(s));
    acc := acc + AllOfDowngrade(s);
    var properties := WriteSchemaMapV2(s.properties, s.required);
    w.WriteOptionalMap(K.Properties, properties);
    AppendAssoc(m0, acc, OptionalMap(K.Properties, V2PropertyMembers(s.properties, s.required)));
    acc := acc + OptionalMap(K.Properties, V2PropertyMembers(s.properties, s.required));
    if s.additionalPropertiesAllowed {
      var additional := WriteOptionalSchemaV2(s.additionalProperties);
      w.WriteOptionalObject(K.AdditionalProperties, additional);
    } else {
      w.WriteBoolProperty(K.AdditionalProperties, s.additionalPropertiesAllowed);
    }
    AppendAssoc(m0, acc, (if s.additionalPropertiesAllowed then OptionalObject(K.AdditionalProperties, V2Value(s.additionalProperties))
       else BoolProperty(K.AdditionalProperties, false)));
    acc := acc + (if s.additionalPropertiesAllowed then OptionalObject(K.AdditionalProperties, V2Value(s.additionalProperties))
       else BoolProperty(K.AdditionalProperties, false));
  }

  /** Lines 606-627 of `SerializeAsV2`. */
  method WriteV2Annotations(s: Schema, w: ObjectWriter, parentRequired: seq<string>, propertyName: Option<string>)
    modifies w
    ensures w.members == old(w.members) + V2AnnotationMembers(s, parentRequired, propertyName)
  {
    ghost var m0 := w.members;
    w.WriteStringProperty(K.Discriminator, DiscriminatorName(s.discriminator));
    ghost var acc := StringProperty(K.Discriminator, DiscriminatorName(s.discriminator));
    if !(propertyName.Some? && propertyName.value in parentRequired) {
      w.WriteFlagProperty(K.ReadOnly, s.readOnly, false);
    }
    AppendAssoc(m0, acc, (if !RequiredByParent(parentRequired, propertyName) then FlagProperty(K.ReadOnly, s.readOnly, false) else []));
    acc := acc + (if !RequiredByParent(parentRequired, propertyName) then FlagProperty(K.ReadOnly, s.readOnly, false) else []);
    w.WriteOptionalObject(K.Xml, ElementValue(s.xml, OpenApi2_0));
    AppendAssoc(m0, acc, OptionalObject(K.Xml, ElementValue(s.xml, OpenApi2_0)));
    acc := acc + OptionalObject(K.Xml, ElementValue(s.xml, OpenApi2_0));
    w.WriteOptionalObject(K.ExternalDocs, ElementValue(s.externalDocs, OpenApi2_0));
    AppendAssoc(m0, acc, OptionalObject(K.ExternalDocs, ElementValue(s.externalDocs, OpenApi2_0)));
    acc := acc + OptionalObject(K.ExternalDocs, ElementValue(s.externalDocs, OpenApi2_0));
    w.WriteOptionalObject(K.Example, NodeValue(s.example));
    AppendAssoc(m0, acc, OptionalObject(K.Example, NodeValue(s.example)));
    acc := acc + OptionalObject(K.Example, NodeValue(s.example));
    w.WriteExtensions(s.extensions);
    AppendAssoc(m0, acc, ExtensionMembers(s.extensions));
    acc := acc + ExtensionMembers(s.extensions);
  }

  /** `WriteFormatProperty(writer)`. */
  method WriteFormatProperty(s: Schema, w: ObjectWriter)
    modifies w
    ensures w.members == old(w.members) + StringProperty(K.Format, FormatToWrite(s))
  {
    var formatToWrite := s.format;
    if !HasFormat(s) {
      formatToWrite := FirstFormat(s.allOf);
      if formatToWrite.None? {
        formatToWrite := FirstFormat(s.anyOf);
      }
      if formatToWrite.None? {
        formatToWrite := FirstFormat(s.oneOf);
      }
    }
    w.WriteStringProperty(K.Format, formatToWrite);
  }

  /** Lines 570-582 of `SerializeAsV2`. */
  method WriteAllOfDowngrade(s: Schema, w: ObjectWriter)
    modifies w
    ensures w.members == old(w.members) + AllOfDowngrade(s)
    decreases s, 0
  {
    if s.allOf == [] {
      var firstAnyOf := WriteFirstSchemaV2(s.anyOf);
      w.WriteOptionalCollection(K.AllOf, firstAnyOf);
      if s.anyOf == [] {
        var firstOneOf := WriteFirstSchemaV2(s.oneOf);
        w.WriteOptionalCollection(K.AllOf, firstOneOf);
      }
    }
  }

  /** A child schema written by the public `SerializeAsV2(writer)`. */
  method WriteOptionalSchemaV2(o: Option<Schema>) returns (r: Option<Value>)
    ensures r == V2Value(o)
    decreases o
  {
    if o.Some? {
      var c := SerializeAsV2(o.value, [], None);
      r := Some(c);
    } else {
      r := None;
    }
  }

  /** Each child schema of a list written by the public `SerializeAsV2(writer)`. */
  method WriteSchemaListV2(xs: seq<Schema>) returns (vs: seq<Value>)
    ensures vs == V2Values(xs)
    decreases xs
  {
    vs := [];
    for i := 0 to |xs|
      invariant vs == V2Values(xs[..i])
    {
      assert xs[..i + 1][..i] == xs[..i];
      var c := SerializeAsV2(xs[i], [], None);
      vs := vs + [c];
    }
    assert xs[..|xs|] == xs;
  }

  /** `Take(1)` of a child list, written by the public `SerializeAsV2(writer)`. */
  method WriteFirstSchemaV2(xs: seq<Schema>) returns (vs: seq<Value>)
    ensures vs == FirstV2Value(xs)
    decreases xs
  {
    if xs == [] {
      vs := [];
    } else {
      var c := SerializeAsV2(xs[0], [], None);
      vs := [c];
    }
  }

  /** The `properties` table of `SerializeAsV2`, each entry with the parent's `Required` and its name. */
  method WriteSchemaMapV2(ps: seq<Property>, required: seq<string>) returns (ms: seq<Member>)
    ensures ms == V2PropertyMembers(ps, required)
    decreases ps
  {
    ms := [];
    for i := 0 to |ps|
      invariant ms == V2PropertyMembers(ps[..i], required)
    {
      assert ps[..i + 1][..i] == ps[..i];
      var c := SerializeAsV2(ps[i].schema, required, Some(ps[i].name));
      ms := ms + [Member(ps[i].name, c)];
    }
    assert ps[..|ps|] == ps;
  }
}
