/**
 * What the schema writers promise about the keys of the objects they write:
 * which keywords each version can emit, where a keyword's events come from,
 * and the 2.0 special cases (`additionalProperties: false`, the `allOf`
 * downgrade, `readOnly` of required properties, the inherited `format`).
 *
 * Most statements are about `Occurrences(ms, key)`, the events of an object
 * under one key, in order; they assume that every extension key carries the
 * reserved `x-` prefix, so that no extension can stand in for a keyword.
 * Each block of a writer is taken apart piece by piece (one piece per
 * `Write*` call), so that no proof has to look at a whole object at once.
 */
module SerializerProperties {
  import opened Wrappers
  import opened JsonWriter
  import opened TypeAlgebra
  import opened SchemaModel
  import opened TypeProperty
  import opened SchemaSerializer
  import opened SchemaKeywords
  import K = OpenApiConstants

  /** The keys of the schema's extension entries. */
  function ExtensionKeys(s: Schema): set<string> {
    set e | e in s.extensions :: e.key
  }

  /** Under the `x-` convention, an extension key is never a keyword. */
  lemma ExtensionKeyReserved(s: Schema, key: string)
    requires ExtensionKeysReserved(s) && key in ExtensionKeys(s)
    ensures IsExtensionKey(key)
  {
    var e :| e in s.extensions && e.key == key;
  }

  /** The extension events carry the keys of the extension entries. */
  lemma ExtensionKeysIn(s: Schema)
    ensures KeysIn(ExtensionMembers(s.extensions), ExtensionKeys(s))
  {
    ExtensionMemberKeysFrom(s.extensions);
  }

  /** The `allOf` downgrade writes at most one event, under `allOf`. */
  lemma AllOfDowngradeKeyed(s: Schema, key: string)
    ensures Occurrences(AllOfDowngrade(s), key) == if key == K.AllOf then AllOfDowngrade(s) else []
  {
    if s.allOf == [] {
      var first := OptionalCollection(K.AllOf, FirstV2Value(s.anyOf));
      var second := if s.anyOf == [] then OptionalCollection(K.AllOf, FirstV2Value(s.oneOf)) else [];
      OccurrencesAppend(first, second, key);
      CollectionKeyed(K.AllOf, FirstV2Value(s.anyOf), key);
      if s.anyOf == [] {
        CollectionKeyed(K.AllOf, FirstV2Value(s.oneOf), key);
      }
    }
  }

  /** The extension events never carry a key without the `x-` prefix. */
  lemma ExtensionOccurrences(s: Schema, key: string)
    requires ExtensionKeysReserved(s) && !IsExtensionKey(key)
    ensures Occurrences(ExtensionMembers(s.extensions), key) == []
  {
    ExtensionKeysIn(s);
    if key in ExtensionKeys(s) {
      ExtensionKeyReserved(s, key);
    }
    KeyAbsent(ExtensionMembers(s.extensions), ExtensionKeys(s), key);
  }

  // ---------------------------------------------------------------------------
  // Keys of each block
  // ---------------------------------------------------------------------------

  /** The validation block writes only validation keywords. */
  lemma ConstraintKeys(s: Schema)
    ensures KeysIn(ConstraintMembers(s), ConstraintKeywords)
  {
    var ks := ConstraintKeywords;
    var acc := DecimalProperty(K.MultipleOf, s.multipleOf);
    KeysInAppend(acc, DecimalProperty(K.Maximum, s.maximum), ks);
    acc := acc + DecimalProperty(K.Maximum, s.maximum);
    KeysInAppend(acc, OptionalFlagProperty(K.ExclusiveMaximum, s.exclusiveMaximum), ks);
    acc := acc + OptionalFlagProperty(K.ExclusiveMaximum, s.exclusiveMaximum);
    KeysInAppend(acc, DecimalProperty(K.Minimum, s.minimum), ks);
    acc := acc + DecimalProperty(K.Minimum, s.minimum);
    KeysInAppend(acc, OptionalFlagProperty(K.ExclusiveMinimum, s.exclusiveMinimum), ks);
    acc := acc + OptionalFlagProperty(K.ExclusiveMinimum, s.exclusiveMinimum);
    KeysInAppend(acc, IntProperty(K.MaxLength, s.maxLength), ks);
    acc := acc + IntProperty(K.MaxLength, s.maxLength);
    KeysInAppend(acc, IntProperty(K.MinLength, s.minLength), ks);
    acc := acc + IntProperty(K.MinLength, s.minLength);
    KeysInAppend(acc, StringProperty(K.Pattern, s.pattern), ks);
    acc := acc + StringProperty(K.Pattern, s.pattern);
    KeysInAppend(acc, IntProperty(K.MaxItems, s.maxItems), ks);
    acc := acc + IntProperty(K.MaxItems, s.maxItems);
    KeysInAppend(acc, IntProperty(K.MinItems, s.minItems), ks);
    acc := acc + IntProperty(K.MinItems, s.minItems);
    KeysInAppend(acc, OptionalFlagProperty(K.UniqueItems, s.uniqueItems), ks);
    acc := acc + OptionalFlagProperty(K.UniqueItems, s.uniqueItems);
    KeysInAppend(acc, IntProperty(K.MaxProperties, s.maxProperties), ks);
    acc := acc + IntProperty(K.MaxProperties, s.maxProperties);
    KeysInAppend(acc, IntProperty(K.MinProperties, s.minProperties), ks);
    acc := acc + IntProperty(K.MinProperties, s.minProperties);
    KeysInAppend(acc, OptionalCollection(K.Required, StringValues(s.required)), ks);
    acc := acc + OptionalCollection(K.Required, StringValues(s.required));
    KeysInAppend(acc, OptionalCollection(K.Enum, NodeValues(s.enumValues)), ks);
    acc := acc + OptionalCollection(K.Enum, NodeValues(s.enumValues));
  }

  /** The JSON Schema block writes only its own keywords. */
  lemma JsonSchemaKeys(s: Schema)
    ensures KeysIn(JsonSchemaKeywordMembers(s), JsonSchemaKeywords)
  {
    var ks := JsonSchemaKeywords;
    var acc := StringProperty(K.Id, s.id);
    KeysInAppend(acc, StringProperty(K.DollarSchema, s.dollarSchema), ks);
    acc := acc + StringProperty(K.DollarSchema, s.dollarSchema);
    KeysInAppend(acc, StringProperty(K.Comment, s.comment), ks);
    acc := acc + StringProperty(K.Comment, s.comment);
    KeysInAppend(acc, StringProperty(K.Const, s.constValue), ks);
    acc := acc + StringProperty(K.Const, s.constValue);
    KeysInAppend(acc, OptionalMap(K.Vocabulary, VocabularyMembers(s.vocabulary)), ks);
    acc := acc + OptionalMap(K.Vocabulary, VocabularyMembers(s.vocabulary));
    KeysInAppend(acc, OptionalMap(K.Defs, PropertyMembers(s.definitions, OpenApi3_1)), ks);
    acc := acc + OptionalMap(K.Defs, PropertyMembers(s.definitions, OpenApi3_1));
    KeysInAppend(acc, StringProperty(K.DynamicRef, s.dynamicRef), ks);
    acc := acc + StringProperty(K.DynamicRef, s.dynamicRef);
    KeysInAppend(acc, StringProperty(K.DynamicAnchor, s.dynamicAnchor), ks);
    acc := acc + StringProperty(K.DynamicAnchor, s.dynamicAnchor);
    KeysInAppend(acc, DecimalProperty(K.V31ExclusiveMaximum, s.v31ExclusiveMaximum), ks);
    acc := acc + DecimalProperty(K.V31ExclusiveMaximum, s.v31ExclusiveMaximum);
    KeysInAppend(acc, DecimalProperty(K.V31ExclusiveMinimum, s.v31ExclusiveMinimum), ks);
    acc := acc + DecimalProperty(K.V31ExclusiveMinimum, s.v31ExclusiveMinimum);
    KeysInAppend(acc, FlagProperty(K.UnevaluatedProperties, s.unevaluatedProperties, false), ks);
    acc := acc + FlagProperty(K.UnevaluatedProperties, s.unevaluatedProperties, false);
    KeysInAppend(acc, OptionalCollection(K.Examples, NodeValues(s.examples)), ks);
    acc := acc + OptionalCollection(K.Examples, NodeValues(s.examples));
    KeysInAppend(acc, OptionalMap(K.PatternProperties, PropertyMembers(s.patternProperties, OpenApi3_1)), ks);
    acc := acc + OptionalMap(K.PatternProperties, PropertyMembers(s.patternProperties, OpenApi3_1));
  }

  /** The 3.x subschema block writes only composition and structure keywords. */
  lemma V3ChildKeys(s: Schema, v: SpecVersion)
    ensures KeysIn(V3ChildMembers(s, v), V3ChildKeywords)
  {
    var ks := V3ChildKeywords;
    var acc := OptionalCollection(K.AllOf, SchemaValues(s.allOf, v));
    KeysInAppend(acc, OptionalCollection(K.AnyOf, SchemaValues(s.anyOf, v)), ks);
    acc := acc + OptionalCollection(K.AnyOf, SchemaValues(s.anyOf, v));
    KeysInAppend(acc, OptionalCollection(K.OneOf, SchemaValues(s.oneOf, v)), ks);
    acc := acc + OptionalCollection(K.OneOf, SchemaValues(s.oneOf, v));
    KeysInAppend(acc, OptionalObject(K.Not, SchemaValue(s.not, v)), ks);
    acc := acc + OptionalObject(K.Not, SchemaValue(s.not, v));
    KeysInAppend(acc, OptionalObject(K.Items, SchemaValue(s.items, v)), ks);
    acc := acc + OptionalObject(K.Items, SchemaValue(s.items, v));
    KeysInAppend(acc, OptionalMap(K.Properties, PropertyMembers(s.properties, v)), ks);
    acc := acc + OptionalMap(K.Properties, PropertyMembers(s.properties, v));
    KeysInAppend(acc, (if s.additionalPropertiesAllowed then OptionalObject(K.AdditionalProperties, SchemaValue(s.additionalProperties, v)) else BoolProperty(K.AdditionalProperties, false)), ks);
    acc := acc + (if s.additionalPropertiesAllowed then OptionalObject(K.AdditionalProperties, SchemaValue(s.additionalProperties, v)) else BoolProperty(K.AdditionalProperties, false));
  }

  /** The 3.x annotation block writes annotation keywords and the extension keys. */
  lemma V3AnnotationKeys(s: Schema, v: SpecVersion)
    ensures KeysIn(V3AnnotationMembers(s, v), V3AnnotationKeywords + ExtensionKeys(s))
  {
    ExtensionKeysIn(s);
    var ks := V3AnnotationKeywords + ExtensionKeys(s);
    var acc := StringProperty(K.Description, s.description);
    KeysInAppend(acc, StringProperty(K.Format, s.format), ks);
    acc := acc + StringProperty(K.Format, s.format);
    KeysInAppend(acc, OptionalObject(K.Default, NodeValue(s.default)), ks);
    acc := acc + OptionalObject(K.Default, NodeValue(s.default));
    KeysInAppend(acc, OptionalObject(K.Discriminator, DiscriminatorValue(s.discriminator, v)), ks);
    acc := acc + OptionalObject(K.Discriminator, DiscriminatorValue(s.discriminator, v));
    KeysInAppend(acc, FlagProperty(K.ReadOnly, s.readOnly, false), ks);
    acc := acc + FlagProperty(K.ReadOnly, s.readOnly, false);
    KeysInAppend(acc, FlagProperty(K.WriteOnly, s.writeOnly, false), ks);
    acc := acc + FlagProperty(K.WriteOnly, s.writeOnly, false);
    KeysInAppend(acc, OptionalObject(K.Xml, ElementValue(s.xml, OpenApi2_0)), ks);
    acc := acc + OptionalObject(K.Xml, ElementValue(s.xml, OpenApi2_0));
    KeysInAppend(acc, OptionalObject(K.ExternalDocs, ElementValue(s.externalDocs, v)), ks);
    acc := acc + OptionalObject(K.ExternalDocs, ElementValue(s.externalDocs, v));
    KeysInAppend(acc, OptionalObject(K.Example, NodeValue(s.example)), ks);
    acc := acc + OptionalObject(K.Example, NodeValue(s.example));
    KeysInAppend(acc, FlagProperty(K.Deprecated, s.deprecated, false), ks);
    acc := acc + FlagProperty(K.Deprecated, s.deprecated, false);
    KeysInAppend(acc, ExtensionMembers(s.extensions), ks);
    acc := acc + ExtensionMembers(s.extensions);
    KeysInAppend(acc, OptionalMap(K.UnrecognizedKeywords, NodeMembers(s.unrecognizedKeywords)), ks);
    acc := acc + OptionalMap(K.UnrecognizedKeywords, NodeMembers(s.unrecognizedKeywords));
  }

  /** The head of a 2.0 object writes `type`, `x-nullable` and the leading annotations only. */
  lemma V2HeadKeys(s: Schema)
    ensures KeysIn(V2HeadMembers(s), V2HeadKeywords)
  {
    TypeMemberKeys(s, OpenApi2_0);
    var ks := V2HeadKeywords;
    var acc := TypeMembers(s, OpenApi2_0);
    KeysInAppend(acc, StringProperty(K.Description, s.description), ks);
    acc := acc + StringProperty(K.Description, s.description);
    KeysInAppend(acc, StringProperty(K.Format, FormatToWrite(s)), ks);
    acc := acc + StringProperty(K.Format, FormatToWrite(s));
    KeysInAppend(acc, StringProperty(K.Title, s.title), ks);
    acc := acc + StringProperty(K.Title, s.title);
    KeysInAppend(acc, OptionalObject(K.Default, NodeValue(s.default)), ks);
    acc := acc + OptionalObject(K.Default, NodeValue(s.default));
  }

  /** The 2.0 subschema block writes only `items`, `allOf`, `properties` and `additionalProperties`. */
  lemma V2ChildKeys(s: Schema)
    ensures KeysIn(V2ChildMembers(s), V2ChildKeywords)
  {
    var ks := V2ChildKeywords;
    var acc := OptionalObject(K.Items, V2Value(s.items));
    KeysInAppend(acc, OptionalCollection(K.AllOf, V2Values(s.allOf)), ks);
    acc := acc + OptionalCollection(K.AllOf, V2Values(s.allOf));
    KeysInAppend(acc, AllOfDowngrade(s), ks);
    acc := acc + AllOfDowngrade(s);
    KeysInAppend(acc, OptionalMap(K.Properties, V2PropertyMembers(s.properties, s.required)), ks);
    acc := acc + OptionalMap(K.Properties, V2PropertyMembers(s.properties, s.required));
    KeysInAppend(acc, (if s.additionalPropertiesAllowed then OptionalObject(K.AdditionalProperties, V2Value(s.additionalProperties)) else BoolProperty(K.AdditionalProperties, false)), ks);
    acc := acc + (if s.additionalPropertiesAllowed then OptionalObject(K.AdditionalProperties, V2Value(s.additionalProperties)) else BoolProperty(K.AdditionalProperties, false));
  }

  /** The 2.0 annotation block writes 2.0 annotation keywords and the extension keys. */
  lemma V2AnnotationKeys(s: Schema, parentRequired: seq<string>, propertyName: Option<string>)
    ensures KeysIn(V2AnnotationMembers(s, parentRequired, propertyName), V2AnnotationKeywords + ExtensionKeys(s))
  {
    ExtensionKeysIn(s);
    var ks := V2AnnotationKeywords + ExtensionKeys(s);
    var acc := StringProperty(K.Discriminator, DiscriminatorName(s.discriminator));
    KeysInAppend(acc, (if !RequiredByParent(parentRequired, propertyName) then FlagProperty(K.ReadOnly, s.readOnly, false) else []), ks);
    acc := acc + (if !RequiredByParent(parentRequired, propertyName) then FlagProperty(K.ReadOnly, s.readOnly, false) else []);
    KeysInAppend(acc, OptionalObject(K.Xml, ElementValue(s.xml, OpenApi2_0)), ks);
    acc := acc + OptionalObject(K.Xml, ElementValue(s.xml, OpenApi2_0));
    KeysInAppend(acc, OptionalObject(K.ExternalDocs, ElementValue(s.externalDocs, OpenApi2_0)), ks);
    acc := acc + OptionalObject(K.ExternalDocs, ElementValue(s.externalDocs, OpenApi2_0));
    KeysInAppend(acc, OptionalObject(K.Example, NodeValue(s.example)), ks);
    acc := acc + OptionalObject(K.Example, NodeValue(s.example));
    KeysInAppend(acc, ExtensionMembers(s.extensions), ks);
    acc := acc + ExtensionMembers(s.extensions);
  }

  // ---------------------------------------------------------------------------
  // Blocks without a key
  // ---------------------------------------------------------------------------

  lemma JsonSchemaOmits(s: Schema, v: SpecVersion, key: string)
    requires v != OpenApi3_1 || key !in JsonSchemaKeywords
    ensures Occurrences(if v == OpenApi3_1 then JsonSchemaKeywordMembers(s) else [], key) == []
  {
    if v == OpenApi3_1 {
      JsonSchemaKeys(s);
      KeyAbsent(JsonSchemaKeywordMembers(s), JsonSchemaKeywords, key);
    }
  }

  lemma ConstraintOmits(s: Schema, key: string)
    requires key !in ConstraintKeywords
    ensures Occurrences(ConstraintMembers(s), key) == []
  {
    ConstraintKeys(s);
    KeyAbsent(ConstraintMembers(s), ConstraintKeywords, key);
  }

  lemma TypeOmits(s: Schema, v: SpecVersion, key: string)
    requires key != K.Type && (v == OpenApi3_1 || key != NullableKey(v))
    ensures Occurrences(TypeMembers(s, v), key) == []
  {
    TypeMemberKeys(s, v);
    NoOccurrences(TypeMembers(s, v), key);
  }

  lemma V3ChildOmits(s: Schema, v: SpecVersion, key: string)
    requires key !in V3ChildKeywords
    ensures Occurrences(V3ChildMembers(s, v), key) == []
  {
    V3ChildKeys(s, v);
    KeyAbsent(V3ChildMembers(s, v), V3ChildKeywords, key);
  }

  lemma V3AnnotationOmits(s: Schema, v: SpecVersion, key: string)
    requires ExtensionKeysReserved(s) && !IsExtensionKey(key) && key !in V3AnnotationKeywords
    ensures Occurrences(V3AnnotationMembers(s, v), key) == []
  {
    V3AnnotationKeys(s, v);
    if key in ExtensionKeys(s) {
      ExtensionKeyReserved(s, key);
    }
    KeyAbsent(V3AnnotationMembers(s, v), V3AnnotationKeywords + ExtensionKeys(s), key);
  }

  lemma V2HeadOmits(s: Schema, key: string)
    requires key !in V2HeadKeywords
    ensures Occurrences(V2HeadMembers(s), key) == []
  {
    V2HeadKeys(s);
    KeyAbsent(V2HeadMembers(s), V2HeadKeywords, key);
  }

  lemma V2ChildOmits(s: Schema, key: string)
    requires key !in V2ChildKeywords
    ensures Occurrences(V2ChildMembers(s), key) == []
  {
    V2ChildKeys(s);
    KeyAbsent(V2ChildMembers(s), V2ChildKeywords, key);
  }

  lemma V2AnnotationOmits(s: Schema, parentRequired: seq<string>, propertyName: Option<string>, key: string)
    requires ExtensionKeysReserved(s) && !IsExtensionKey(key) && key !in V2AnnotationKeywords
    ensures Occurrences(V2AnnotationMembers(s, parentRequired, propertyName), key) == []
  {
    V2AnnotationKeys(s, parentRequired, propertyName);
    if key in ExtensionKeys(s) {
      ExtensionKeyReserved(s, key);
    }
    KeyAbsent(V2AnnotationMembers(s, parentRequired, propertyName), V2AnnotationKeywords + ExtensionKeys(s), key);
  }

  // ---------------------------------------------------------------------------
  // Looking up one key in a whole object
  // ---------------------------------------------------------------------------

  /** The occurrences of a key in a 3.x object, block by block. */
  lemma V3Split(s: Schema, v: SpecVersion, key: string)
    ensures Occurrences(V3Members(s, v), key)
         == Occurrences(if v == OpenApi3_1 then JsonSchemaKeywordMembers(s) else [], key)
            + Occurrences(StringProperty(K.Title, s.title), key)
            + Occurrences(ConstraintMembers(s), key)
            + Occurrences(TypeMembers(s, v), key)
            + Occurrences(V3ChildMembers(s, v), key)
            + Occurrences(V3AnnotationMembers(s, v), key)
  {
    var a := if v == OpenApi3_1 then JsonSchemaKeywordMembers(s) else [];
    var b := StringProperty(K.Title, s.title);
    var c := ConstraintMembers(s);
    var d := TypeMembers(s, v);
    var e := V3ChildMembers(s, v);
    var f := V3AnnotationMembers(s, v);
    OccurrencesAppend(a, b, key);
    OccurrencesAppend(a + b, c, key);
    OccurrencesAppend(a + b + c, d, key);
    OccurrencesAppend(a + b + c + d, e, key);
    OccurrencesAppend(a + b + c + d + e, f, key);
  }

  /**
   * A key written by one block of a 3.x object only is looked up in that
   * block; a key no block writes is not in the object.
   */
  lemma V3Lookup(s: Schema, v: SpecVersion, key: string)
    ensures var js := Occurrences(if v == OpenApi3_1 then JsonSchemaKeywordMembers(s) else [], key);
      var t := Occurrences(StringProperty(K.Title, s.title), key);
      var c := Occurrences(ConstraintMembers(s), key);
      var ty := Occurrences(TypeMembers(s, v), key);
      var ch := Occurrences(V3ChildMembers(s, v), key);
      var a := Occurrences(V3AnnotationMembers(s, v), key);
      var all := Occurrences(V3Members(s, v), key);
      && (js == [] && t == [] && c == [] && ch == [] && a == [] ==> all == ty)
      && (js == [] && t == [] && c == [] && ty == [] && a == [] ==> all == ch)
      && (js == [] && t == [] && c == [] && ty == [] && ch == [] ==> all == a)
      && (js == [] && t == [] && c == [] && ty == [] && ch == [] && a == [] ==> all == [])
  {
    V3Split(s, v, key);
    Pick6(Occurrences(if v == OpenApi3_1 then JsonSchemaKeywordMembers(s) else [], key),
          Occurrences(StringProperty(K.Title, s.title), key),
          Occurrences(ConstraintMembers(s), key),
          Occurrences(TypeMembers(s, v), key),
          Occurrences(V3ChildMembers(s, v), key),
          Occurrences(V3AnnotationMembers(s, v), key));
  }

  /** The occurrences of a key in a 2.0 object, block by block. */
  lemma V2Split(s: Schema, parentRequired: seq<string>, propertyName: Option<string>, key: string)
    ensures Occurrences(V2Members(s, parentRequired, propertyName), key)
         == Occurrences(V2HeadMembers(s), key)
            + Occurrences(ConstraintMembers(s), key)
            + Occurrences(V2ChildMembers(s), key)
            + Occurrences(V2AnnotationMembers(s, parentRequired, propertyName), key)
  {
    var a := V2HeadMembers(s);
    var b := ConstraintMembers(s);
    var c := V2ChildMembers(s);
    var d := V2AnnotationMembers(s, parentRequired, propertyName);
    OccurrencesAppend(a, b, key);
    OccurrencesAppend(a + b, c, key);
    OccurrencesAppend(a + b + c, d, key);
  }

  /**
   * A key written by one block of a 2.0 object only is looked up in that
   * block; a key no block writes is not in the object.
   */
  lemma V2Lookup(s: Schema, parentRequired: seq<string>, propertyName: Option<string>, key: string)
    ensures var h := Occurrences(V2HeadMembers(s), key);
      var c := Occurrences(ConstraintMembers(s), key);
      var ch := Occurrences(V2ChildMembers(s), key);
      var a := Occurrences(V2AnnotationMembers(s, parentRequired, propertyName), key);
      var all := Occurrences(V2Members(s, parentRequired, propertyName), key);
      && (c == [] && ch == [] && a == [] ==> all == h)
      && (h == [] && c == [] && a == [] ==> all == ch)
      && (h == [] && c == [] && ch == [] ==> all == a)
      && (h == [] && c == [] && ch == [] && a == [] ==> all == [])
  {
    V2Split(s, parentRequired, propertyName, key);
    Pick4(Occurrences(V2HeadMembers(s), key),
          Occurrences(ConstraintMembers(s), key),
          Occurrences(V2ChildMembers(s), key),
          Occurrences(V2AnnotationMembers(s, parentRequired, propertyName), key));
  }


  /** The chain of `V3ChildAdditionalProperties`, over plain logs. */
  lemma V3ChildAdditionalPropertiesPieces(p1: seq<Member>, p2: seq<Member>, p3: seq<Member>, p4: seq<Member>, p5: seq<Member>, p6: seq<Member>, p7: seq<Member>, key: string)
    requires Occurrences(p1, key) == []
    requires Occurrences(p2, key) == []
    requires Occurrences(p3, key) == []
    requires Occurrences(p4, key) == []
    requires Occurrences(p5, key) == []
    requires Occurrences(p6, key) == []
    ensures Occurrences(p1 + p2 + p3 + p4 + p5 + p6 + p7, key) == Occurrences(p7, key)
  {
    var acc := p1;
    OccurrencesAppendNone(acc, p2, key);
    acc := acc + p2;
    OccurrencesAppendNone(acc, p3, key);
    acc := acc + p3;
    OccurrencesAppendNone(acc, p4, key);
    acc := acc + p4;
    OccurrencesAppendNone(acc, p5, key);
    acc := acc + p5;
    OccurrencesAppendNone(acc, p6, key);
    acc := acc + p6;
    OccurrencesAppendFirst(acc, p7, key);
    acc := acc + p7;
  }

  /** The events of each piece of `V3ChildMembers` under `K.AdditionalProperties`. */
  lemma V3ChildAdditionalPropertiesAbsent(s: Schema, v: SpecVersion)
    ensures Occurrences(OptionalCollection(K.AllOf, SchemaValues(s.allOf, v)), K.AdditionalProperties) == []
    ensures Occurrences(OptionalCollection(K.AnyOf, SchemaValues(s.anyOf, v)), K.AdditionalProperties) == []
    ensures Occurrences(OptionalCollection(K.OneOf, SchemaValues(s.oneOf, v)), K.AdditionalProperties) == []
    ensures Occurrences(OptionalObject(K.Not, SchemaValue(s.not, v)), K.AdditionalProperties) == []
    ensures Occurrences(OptionalObject(K.Items, SchemaValue(s.items, v)), K.AdditionalProperties) == []
    ensures Occurrences(OptionalMap(K.Properties, PropertyMembers(s.properties, v)), K.AdditionalProperties) == []
    ensures Occurrences((if s.additionalPropertiesAllowed then OptionalObject(K.AdditionalProperties, SchemaValue(s.additionalProperties, v)) else BoolProperty(K.AdditionalProperties, false)), K.AdditionalProperties) == (if s.additionalPropertiesAllowed then OptionalObject(K.AdditionalProperties, SchemaValue(s.additionalProperties, v)) else BoolProperty(K.AdditionalProperties, false))
  {
    CollectionKeyed(K.AllOf, SchemaValues(s.allOf, v), K.AdditionalProperties);
    CollectionKeyed(K.AnyOf, SchemaValues(s.anyOf, v), K.AdditionalProperties);
    CollectionKeyed(K.OneOf, SchemaValues(s.oneOf, v), K.AdditionalProperties);
    ObjectKeyed(K.Not, SchemaValue(s.not, v), K.AdditionalProperties);
    ObjectKeyed(K.Items, SchemaValue(s.items, v), K.AdditionalProperties);
    MapKeyed(K.Properties, PropertyMembers(s.properties, v), K.AdditionalProperties);
    if s.additionalPropertiesAllowed {
      ObjectKeyed(K.AdditionalProperties, SchemaValue(s.additionalProperties, v), K.AdditionalProperties);
    } else {
      BoolKeyed(K.AdditionalProperties, false, K.AdditionalProperties);
    }
  }

  lemma V3ChildAdditionalProperties(s: Schema, v: SpecVersion)
    ensures Occurrences(V3ChildMembers(s, v), K.AdditionalProperties) == (if s.additionalPropertiesAllowed then OptionalObject(K.AdditionalProperties, SchemaValue(s.additionalProperties, v))
            else BoolProperty(K.AdditionalProperties, false))
  {
    V3ChildAdditionalPropertiesAbsent(s, v);
    V3ChildAdditionalPropertiesPieces(
      OptionalCollection(K.AllOf, SchemaValues(s.allOf, v)),
      OptionalCollection(K.AnyOf, SchemaValues(s.anyOf, v)),
      OptionalCollection(K.OneOf, SchemaValues(s.oneOf, v)),
      OptionalObject(K.Not, SchemaValue(s.not, v)),
      OptionalObject(K.Items, SchemaValue(s.items, v)),
      OptionalMap(K.Properties, PropertyMembers(s.properties, v)),
      (if s.additionalPropertiesAllowed then OptionalObject(K.AdditionalProperties, SchemaValue(s.additionalProperties, v)) else BoolProperty(K.AdditionalProperties, false)), K.AdditionalProperties);
  }

  /** The chain of `V2ChildAdditionalProperties`, over plain logs. */
  lemma V2ChildAdditionalPropertiesPieces(p1: seq<Member>, p2: seq<Member>, p3: seq<Member>, p4: seq<Member>, p5: seq<Member>, key: string)
    requires Occurrences(p1, key) == []
    requires Occurrences(p2, key) == []
    requires Occurrences(p3, key) == []
    requires Occurrences(p4, key) == []
    ensures Occurrences(p1 + p2 + p3 + p4 + p5, key) == Occurrences(p5, key)
  {
    var acc := p1;
    OccurrencesAppendNone(acc, p2, key);
    acc := acc + p2;
    OccurrencesAppendNone(acc, p3, key);
    acc := acc + p3;
    OccurrencesAppendNone(acc, p4, key);
    acc := acc + p4;
    OccurrencesAppendFirst(acc, p5, key);
    acc := acc + p5;
  }

  /** The events of each piece of `V2ChildMembers` under `K.AdditionalProperties`. */
  lemma V2ChildAdditionalPropertiesAbsent(s: Schema)
    ensures Occurrences(OptionalObject(K.Items, V2Value(s.items)), K.AdditionalProperties) == []
    ensures Occurrences(OptionalCollection(K.AllOf, V2Values(s.allOf)), K.AdditionalProperties) == []
    ensures Occurrences(AllOfDowngrade(s), K.AdditionalProperties) == []
    ensures Occurrences(OptionalMap(K.Properties, V2PropertyMembers(s.properties, s.required)), K.AdditionalProperties) == []
    ensures Occurrences((if s.additionalPropertiesAllowed then OptionalObject(K.AdditionalProperties, V2Value(s.additionalProperties)) else BoolProperty(K.AdditionalProperties, false)), K.AdditionalProperties) == (if s.additionalPropertiesAllowed then OptionalObject(K.AdditionalProperties, V2Value(s.additionalProperties)) else BoolProperty(K.AdditionalProperties, false))
  {
    ObjectKeyed(K.Items, V2Value(s.items), K.AdditionalProperties);
    CollectionKeyed(K.AllOf, V2Values(s.allOf), K.AdditionalProperties);
    AllOfDowngradeKeyed(s, K.AdditionalProperties);
    MapKeyed(K.Properties, V2PropertyMembers(s.properties, s.required), K.AdditionalProperties);
    if s.additionalPropertiesAllowed {
      ObjectKeyed(K.AdditionalProperties, V2Value(s.additionalProperties), K.AdditionalProperties);
    } else {
      BoolKeyed(K.AdditionalProperties, false, K.AdditionalProperties);
    }
  }

  lemma V2ChildAdditionalProperties(s: Schema)
    ensures Occurrences(V2ChildMembers(s), K.AdditionalProperties) == (if s.additionalPropertiesAllowed then OptionalObject(K.AdditionalProperties, V2Value(s.additionalProperties))
            else BoolProperty(K.AdditionalProperties, false))
  {
    V2ChildAdditionalPropertiesAbsent(s);
    V2ChildAdditionalPropertiesPieces(
      OptionalObject(K.Items, V2Value(s.items)),
      OptionalCollection(K.AllOf, V2Values(s.allOf)),
      AllOfDowngrade(s),
      OptionalMap(K.Properties, V2PropertyMembers(s.properties, s.required)),
      (if s.additionalPropertiesAllowed then OptionalObject(K.AdditionalProperties, V2Value(s.additionalProperties)) else BoolProperty(K.AdditionalProperties, false)), K.AdditionalProperties);
  }

  /** The chain of `V2ChildAllOf`, over plain logs. */
  lemma V2ChildAllOfPieces(p1: seq<Member>, p2: seq<Member>, p3: seq<Member>, p4: seq<Member>, p5: seq<Member>, key: string)
    requires Occurrences(p1, key) == []
    requires Occurrences(p4, key) == []
    requires Occurrences(p5, key) == []
    ensures Occurrences(p1 + p2 + p3 + p4 + p5, key) == Occurrences(p2, key) + Occurrences(p3, key)
  {
    var acc := p1;
    OccurrencesAppendFirst(acc, p2, key);
    acc := acc + p2;
    OccurrencesAppend(acc, p3, key);
    acc := acc + p3;
    OccurrencesAppendNone(acc, p4, key);
    acc := acc + p4;
    OccurrencesAppendNone(acc, p5, key);
    acc := acc + p5;
  }

  /** The events of each piece of `V2ChildMembers` under `K.AllOf`. */
  lemma V2ChildAllOfAbsent(s: Schema)
    ensures Occurrences(OptionalObject(K.Items, V2Value(s.items)), K.AllOf) == []
    ensures Occurrences(OptionalCollection(K.AllOf, V2Values(s.allOf)), K.AllOf) == OptionalCollection(K.AllOf, V2Values(s.allOf))
    ensures Occurrences(AllOfDowngrade(s), K.AllOf) == AllOfDowngrade(s)
    ensures Occurrences(OptionalMap(K.Properties, V2PropertyMembers(s.properties, s.required)), K.AllOf) == []
    ensures Occurrences((if s.additionalPropertiesAllowed then OptionalObject(K.AdditionalProperties, V2Value(s.additionalProperties)) else BoolProperty(K.AdditionalProperties, false)), K.AllOf) == []
  {
    ObjectKeyed(K.Items, V2Value(s.items), K.AllOf);
    CollectionKeyed(K.AllOf, V2Values(s.allOf), K.AllOf);
    AllOfDowngradeKeyed(s, K.AllOf);
    MapKeyed(K.Properties, V2PropertyMembers(s.properties, s.required), K.AllOf);
    if s.additionalPropertiesAllowed {
      ObjectKeyed(K.AdditionalProperties, V2Value(s.additionalProperties), K.AllOf);
    } else {
      BoolKeyed(K.AdditionalProperties, false, K.AllOf);
    }
  }

  lemma V2ChildAllOf(s: Schema)
    ensures Occurrences(V2ChildMembers(s), K.AllOf) == OptionalCollection(K.AllOf, V2Values(s.allOf)) + AllOfDowngrade(s)
  {
    V2ChildAllOfAbsent(s);
    V2ChildAllOfPieces(
      OptionalObject(K.Items, V2Value(s.items)),
      OptionalCollection(K.AllOf, V2Values(s.allOf)),
      AllOfDowngrade(s),
      OptionalMap(K.Properties, V2PropertyMembers(s.properties, s.required)),
      (if s.additionalPropertiesAllowed then OptionalObject(K.AdditionalProperties, V2Value(s.additionalProperties)) else BoolProperty(K.AdditionalProperties, false)), K.AllOf);
  }

  /** The chain of `V2ChildProperties`, over plain logs. */
  lemma V2ChildPropertiesPieces(p1: seq<Member>, p2: seq<Member>, p3: seq<Member>, p4: seq<Member>, p5: seq<Member>, key: string)
    requires Occurrences(p1, key) == []
    requires Occurrences(p2, key) == []
    requires Occurrences(p3, key) == []
    requires Occurrences(p5, key) == []
    ensures Occurrences(p1 + p2 + p3 + p4 + p5, key) == Occurrences(p4, key)
  {
    var acc := p1;
    OccurrencesAppendNone(acc, p2, key);
    acc := acc + p2;
    OccurrencesAppendNone(acc, p3, key);
    acc := acc + p3;
    OccurrencesAppendFirst(acc, p4, key);
    acc := acc + p4;
    OccurrencesAppendNone(acc, p5, key);
    acc := acc + p5;
  }

  /** The events of each piece of `V2ChildMembers` under `K.Properties`. */
  lemma V2ChildPropertiesAbsent(s: Schema)
    ensures Occurrences(OptionalObject(K.Items, V2Value(s.items)), K.Properties) == []
    ensures Occurrences(OptionalCollection(K.AllOf, V2Values(s.allOf)), K.Properties) == []
    ensures Occurrences(AllOfDowngrade(s), K.Properties) == []
    ensures Occurrences(OptionalMap(K.Properties, V2PropertyMembers(s.properties, s.required)), K.Properties) == OptionalMap(K.Properties, V2PropertyMembers(s.properties, s.required))
    ensures Occurrences((if s.additionalPropertiesAllowed then OptionalObject(K.AdditionalProperties, V2Value(s.additionalProperties)) else BoolProperty(K.AdditionalProperties, false)), K.Properties) == []
  {
    ObjectKeyed(K.Items, V2Value(s.items), K.Properties);
    CollectionKeyed(K.AllOf, V2Values(s.allOf), K.Properties);
    AllOfDowngradeKeyed(s, K.Properties);
    MapKeyed(K.Properties, V2PropertyMembers(s.properties, s.required), K.Properties);
    if s.additionalPropertiesAllowed {
      ObjectKeyed(K.AdditionalProperties, V2Value(s.additionalProperties), K.Properties);
    } else {
      BoolKeyed(K.AdditionalProperties, false, K.Properties);
    }
  }

  lemma V2ChildProperties(s: Schema)
    ensures Occurrences(V2ChildMembers(s), K.Properties) == OptionalMap(K.Properties, V2PropertyMembers(s.properties, s.required))
  {
    V2ChildPropertiesAbsent(s);
    V2ChildPropertiesPieces(
      OptionalObject(K.Items, V2Value(s.items)),
      OptionalCollection(K.AllOf, V2Values(s.allOf)),
      AllOfDowngrade(s),
      OptionalMap(K.Properties, V2PropertyMembers(s.properties, s.required)),
      (if s.additionalPropertiesAllowed then OptionalObject(K.AdditionalProperties, V2Value(s.additionalProperties)) else BoolProperty(K.AdditionalProperties, false)), K.Properties);
  }

  /** The chain of `V2AnnotationReadOnly`, over plain logs. */
  lemma V2AnnotationReadOnlyPieces(p1: seq<Member>, p2: seq<Member>, p3: seq<Member>, p4: seq<Member>, p5: seq<Member>, p6: seq<Member>, key: string)
    requires Occurrences(p1, key) == []
    requires Occurrences(p3, key) == []
    requires Occurrences(p4, key) == []
    requires Occurrences(p5, key) == []
    requires Occurrences(p6, key) == []
    ensures Occurrences(p1 + p2 + p3 + p4 + p5 + p6, key) == Occurrences(p2, key)
  {
    var acc := p1;
    OccurrencesAppendFirst(acc, p2, key);
    acc := acc + p2;
    OccurrencesAppendNone(acc, p3, key);
    acc := acc + p3;
    OccurrencesAppendNone(acc, p4, key);
    acc := acc + p4;
    OccurrencesAppendNone(acc, p5, key);
    acc := acc + p5;
    OccurrencesAppendNone(acc, p6, key);
    acc := acc + p6;
  }

  /** The events of each piece of `V2AnnotationMembers` under `K.ReadOnly`. */
  lemma V2AnnotationReadOnlyAbsent(s: Schema, parentRequired: seq<string>, propertyName: Option<string>)
    requires ExtensionKeysReserved(s)
    ensures Occurrences(StringProperty(K.Discriminator, DiscriminatorName(s.discriminator)), K.ReadOnly) == []
    ensures Occurrences((if !RequiredByParent(parentRequired, propertyName) then FlagProperty(K.ReadOnly, s.readOnly, false) else []), K.ReadOnly) == (if !RequiredByParent(parentRequired, propertyName) then FlagProperty(K.ReadOnly, s.readOnly, false) else [])
    ensures Occurrences(OptionalObject(K.Xml, ElementValue(s.xml, OpenApi2_0)), K.ReadOnly) == []
    ensures Occurrences(OptionalObject(K.ExternalDocs, ElementValue(s.externalDocs, OpenApi2_0)), K.ReadOnly) == []
    ensures Occurrences(OptionalObject(K.Example, NodeValue(s.example)), K.ReadOnly) == []
    ensures Occurrences(ExtensionMembers(s.extensions), K.ReadOnly) == []
  {
    StringKeyed(K.Discriminator, DiscriminatorName(s.discriminator), K.ReadOnly);
    OccurrencesAllKey((if !RequiredByParent(parentRequired, propertyName) then FlagProperty(K.ReadOnly, s.readOnly, false) else []), K.ReadOnly);
    ObjectKeyed(K.Xml, ElementValue(s.xml, OpenApi2_0), K.ReadOnly);
    ObjectKeyed(K.ExternalDocs, ElementValue(s.externalDocs, OpenApi2_0), K.ReadOnly);
    ObjectKeyed(K.Example, NodeValue(s.example), K.ReadOnly);
    ExtensionOccurrences(s, K.ReadOnly);
  }

  lemma V2AnnotationReadOnly(s: Schema, parentRequired: seq<string>, propertyName: Option<string>)
    requires ExtensionKeysReserved(s)
    ensures Occurrences(V2AnnotationMembers(s, parentRequired, propertyName), K.ReadOnly) == (if !RequiredByParent(parentRequired, propertyName) then FlagProperty(K.ReadOnly, s.readOnly, false) else [])
  {
    V2AnnotationReadOnlyAbsent(s, parentRequired, propertyName);
    V2AnnotationReadOnlyPieces(
      StringProperty(K.Discriminator, DiscriminatorName(s.discriminator)),
      (if !RequiredByParent(parentRequired, propertyName) then FlagProperty(K.ReadOnly, s.readOnly, false) else []),
      OptionalObject(K.Xml, ElementValue(s.xml, OpenApi2_0)),
      OptionalObject(K.ExternalDocs, ElementValue(s.externalDocs, OpenApi2_0)),
      OptionalObject(K.Example, NodeValue(s.example)),
      ExtensionMembers(s.extensions), K.ReadOnly);
  }

  /** The chain of `V3AnnotationFormat`, over plain logs. */
  lemma V3AnnotationFormatPieces(p1: seq<Member>, p2: seq<Member>, p3: seq<Member>, p4: seq<Member>, p5: seq<Member>, p6: seq<Member>, p7: seq<Member>, p8: seq<Member>, p9: seq<Member>, p10: seq<Member>, p11: seq<Member>, p12: seq<Member>, key: string)
    requires Occurrences(p1, key) == []
    requires Occurrences(p3, key) == []
    requires Occurrences(p4, key) == []
    requires Occurrences(p5, key) == []
    requires Occurrences(p6, key) == []
    requires Occurrences(p7, key) == []
    requires Occurrences(p8, key) == []
    requires Occurrences(p9, key) == []
    requires Occurrences(p10, key) == []
    requires Occurrences(p11, key) == []
    requires Occurrences(p12, key) == []
    ensures Occurrences(p1 + p2 + p3 + p4 + p5 + p6 + p7 + p8 + p9 + p10 + p11 + p12, key) == Occurrences(p2, key)
  {
    var acc := p1;
    OccurrencesAppendFirst(acc, p2, key);
    acc := acc + p2;
    OccurrencesAppendNone(acc, p3, key);
    acc := acc + p3;
    OccurrencesAppendNone(acc, p4, key);
    acc := acc + p4;
    OccurrencesAppendNone(acc, p5, key);
    acc := acc + p5;
    OccurrencesAppendNone(acc, p6, key);
    acc := acc + p6;
    OccurrencesAppendNone(acc, p7, key);
    acc := acc + p7;
    OccurrencesAppendNone(acc, p8, key);
    acc := acc + p8;
    OccurrencesAppendNone(acc, p9, key);
    acc := acc + p9;
    OccurrencesAppendNone(acc, p10, key);
    acc := acc + p10;
    OccurrencesAppendNone(acc, p11, key);
    acc := acc + p11;
    OccurrencesAppendNone(acc, p12, key);
    acc := acc + p12;
  }

  /** The events of each piece of `V3AnnotationMembers` under `K.Format`. */
  lemma V3AnnotationFormatAbsent(s: Schema, v: SpecVersion)
    requires ExtensionKeysReserved(s)
    ensures Occurrences(StringProperty(K.Description, s.description), K.Format) == []
    ensures Occurrences(StringProperty(K.Format, s.format), K.Format) == StringProperty(K.Format, s.format)
    ensures Occurrences(OptionalObject(K.Default, NodeValue(s.default)), K.Format) == []
    ensures Occurrences(OptionalObject(K.Discriminator, DiscriminatorValue(s.discriminator, v)), K.Format) == []
    ensures Occurrences(FlagProperty(K.ReadOnly, s.readOnly, false), K.Format) == []
    ensures Occurrences(FlagProperty(K.WriteOnly, s.writeOnly, false), K.Format) == []
    ensures Occurrences(OptionalObject(K.Xml, ElementValue(s.xml, OpenApi2_0)), K.Format) == []
    ensures Occurrences(OptionalObject(K.ExternalDocs, ElementValue(s.externalDocs, v)), K.Format) == []
    ensures Occurrences(OptionalObject(K.Example, NodeValue(s.example)), K.Format) == []
    ensures Occurrences(FlagProperty(K.Deprecated, s.deprecated, false), K.Format) == []
    ensures Occurrences(ExtensionMembers(s.extensions), K.Format) == []
    ensures Occurrences(OptionalMap(K.UnrecognizedKeywords, NodeMembers(s.unrecognizedKeywords)), K.Format) == []
  {
    StringKeyed(K.Description, s.description, K.Format);
    StringKeyed(K.Format, s.format, K.Format);
    ObjectKeyed(K.Default, NodeValue(s.default), K.Format);
    ObjectKeyed(K.Discriminator, DiscriminatorValue(s.discriminator, v), K.Format);
    FlagKeyed(K.ReadOnly, s.readOnly, false, K.Format);
    FlagKeyed(K.WriteOnly, s.writeOnly, false, K.Format);
    ObjectKeyed(K.Xml, ElementValue(s.xml, OpenApi2_0), K.Format);
    ObjectKeyed(K.ExternalDocs, ElementValue(s.externalDocs, v), K.Format);
    ObjectKeyed(K.Example, NodeValue(s.example), K.Format);
    FlagKeyed(K.Deprecated, s.deprecated, false, K.Format);
    ExtensionOccurrences(s, K.Format);
    MapKeyed(K.UnrecognizedKeywords, NodeMembers(s.unrecognizedKeywords), K.Format);
  }

  lemma V3AnnotationFormat(s: Schema, v: SpecVersion)
    requires ExtensionKeysReserved(s)
    ensures Occurrences(V3AnnotationMembers(s, v), K.Format) == StringProperty(K.Format, s.format)
  {
    V3AnnotationFormatAbsent(s, v);
    V3AnnotationFormatPieces(
      StringProperty(K.Description, s.description),
      StringProperty(K.Format, s.format),
      OptionalObject(K.Default, NodeValue(s.default)),
      OptionalObject(K.Discriminator, DiscriminatorValue(s.discriminator, v)),
      FlagProperty(K.ReadOnly, s.readOnly, false),
      FlagProperty(K.WriteOnly, s.writeOnly, false),
      OptionalObject(K.Xml, ElementValue(s.xml, OpenApi2_0)),
      OptionalObject(K.ExternalDocs, ElementValue(s.externalDocs, v)),
      OptionalObject(K.Example, NodeValue(s.example)),
      FlagProperty(K.Deprecated, s.deprecated, false),
      ExtensionMembers(s.extensions),
      OptionalMap(K.UnrecognizedKeywords, NodeMembers(s.unrecognizedKeywords)), K.Format);
  }

  /** The chain of `V2HeadFormat`, over plain logs. */
  lemma V2HeadFormatPieces(p1: seq<Member>, p2: seq<Member>, p3: seq<Member>, p4: seq<Member>, p5: seq<Member>, key: string)
    requires Occurrences(p1, key) == []
    requires Occurrences(p2, key) == []
    requires Occurrences(p4, key) == []
    requires Occurrences(p5, key) == []
    ensures Occurrences(p1 + p2 + p3 + p4 + p5, key) == Occurrences(p3, key)
  {
    var acc := p1;
    OccurrencesAppendNone(acc, p2, key);
    acc := acc + p2;
    OccurrencesAppendFirst(acc, p3, key);
    acc := acc + p3;
    OccurrencesAppendNone(acc, p4, key);
    acc := acc + p4;
    OccurrencesAppendNone(acc, p5, key);
    acc := acc + p5;
  }

  /** The events of each piece of `V2HeadMembers` under `K.Format`. */
  lemma V2HeadFormatAbsent(s: Schema)
    ensures Occurrences(TypeMembers(s, OpenApi2_0), K.Format) == []
    ensures Occurrences(StringProperty(K.Description, s.description), K.Format) == []
    ensures Occurrences(StringProperty(K.Format, FormatToWrite(s)), K.Format) == StringProperty(K.Format, FormatToWrite(s))
    ensures Occurrences(StringProperty(K.Title, s.title), K.Format) == []
    ensures Occurrences(OptionalObject(K.Default, NodeValue(s.default)), K.Format) == []
  {
    TypeOmits(s, OpenApi2_0, K.Format);
    StringKeyed(K.Description, s.description, K.Format);
    StringKeyed(K.Format, FormatToWrite(s), K.Format);
    StringKeyed(K.Title, s.title, K.Format);
    ObjectKeyed(K.Default, NodeValue(s.default), K.Format);
  }

  lemma V2HeadFormat(s: Schema)
    ensures Occurrences(V2HeadMembers(s), K.Format) == StringProperty(K.Format, FormatToWrite(s))
  {
    V2HeadFormatAbsent(s);
    V2HeadFormatPieces(
      TypeMembers(s, OpenApi2_0),
      StringProperty(K.Description, s.description),
      StringProperty(K.Format, FormatToWrite(s)),
      StringProperty(K.Title, s.title),
      OptionalObject(K.Default, NodeValue(s.default)), K.Format);
  }

  /** The chain of `V2HeadType`, over plain logs. */
  lemma V2HeadTypePieces(p1: seq<Member>, p2: seq<Member>, p3: seq<Member>, p4: seq<Member>, p5: seq<Member>, key: string)
    requires Occurrences(p2, key) == []
    requires Occurrences(p3, key) == []
    requires Occurrences(p4, key) == []
    requires Occurrences(p5, key) == []
    ensures Occurrences(p1 + p2 + p3 + p4 + p5, key) == Occurrences(p1, key)
  {
    var acc := p1;
    OccurrencesAppendNone(acc, p2, key);
    acc := acc + p2;
    OccurrencesAppendNone(acc, p3, key);
    acc := acc + p3;
    OccurrencesAppendNone(acc, p4, key);
    acc := acc + p4;
    OccurrencesAppendNone(acc, p5, key);
    acc := acc + p5;
  }

  /** The events of each piece of `V2HeadMembers` under `K.Type`. */
  lemma V2HeadTypeAbsent(s: Schema)
    ensures Occurrences(StringProperty(K.Description, s.description), K.Type) == []
    ensures Occurrences(StringProperty(K.Format, FormatToWrite(s)), K.Type) == []
    ensures Occurrences(StringProperty(K.Title, s.title), K.Type) == []
    ensures Occurrences(OptionalObject(K.Default, NodeValue(s.default)), K.Type) == []
  {
    StringKeyed(K.Description, s.description, K.Type);
    StringKeyed(K.Format, FormatToWrite(s), K.Type);
    StringKeyed(K.Title, s.title, K.Type);
    ObjectKeyed(K.Default, NodeValue(s.default), K.Type);
  }

  lemma V2HeadType(s: Schema)
    ensures Occurrences(V2HeadMembers(s), K.Type) == Occurrences(TypeMembers(s, OpenApi2_0), K.Type)
  {
    V2HeadTypeAbsent(s);
    V2HeadTypePieces(
      TypeMembers(s, OpenApi2_0),
      StringProperty(K.Description, s.description),
      StringProperty(K.Format, FormatToWrite(s)),
      StringProperty(K.Title, s.title),
      OptionalObject(K.Default, NodeValue(s.default)), K.Type);
  }

  // ---------------------------------------------------------------------------
  // Keywords a version never writes
  // ---------------------------------------------------------------------------

  /** A key outside the 2.0 keywords and the extensions is never written in 2.0 output. */
  lemma V2Omits(s: Schema, parentRequired: seq<string>, propertyName: Option<string>, key: string)
    requires ExtensionKeysReserved(s) && !IsExtensionKey(key) && key !in V2Keywords
    ensures Occurrences(V2Members(s, parentRequired, propertyName), key) == []
  {
    V2Lookup(s, parentRequired, propertyName, key);
    V2HeadOmits(s, key);
    ConstraintOmits(s, key);
    V2ChildOmits(s, key);
    V2AnnotationOmits(s, parentRequired, propertyName, key);
  }

  /** A key outside the keywords of a 3.x version and the extensions is never written in that version's output. */
  lemma V3Omits(s: Schema, v: SpecVersion, key: string)
    requires v != OpenApi2_0
    requires ExtensionKeysReserved(s) && !IsExtensionKey(key) && key !in V3Keywords(v)
    ensures Occurrences(V3Members(s, v), key) == []
  {
    V3Lookup(s, v, key);
    JsonSchemaOmits(s, v, key);
    NoOccurrences(StringProperty(K.Title, s.title), key);
    ConstraintOmits(s, key);
    TypeOmits(s, v, key);
    V3ChildOmits(s, v, key);
    V3AnnotationOmits(s, v, key);
  }

  /** 2.0 output has no `anyOf`, `oneOf` or `not`. */
  lemma V2OmitsCompositions(s: Schema, parentRequired: seq<string>, propertyName: Option<string>)
    requires ExtensionKeysReserved(s)
    ensures forall k :: k in V3Compositions ==> Occurrences(V2Members(s, parentRequired, propertyName), k) == []
  {
    CompositionsOutsideV2();
    KeywordsNotExtensions();
    forall k | k in V3Compositions
      ensures Occurrences(V2Members(s, parentRequired, propertyName), k) == []
    {
      V2Omits(s, parentRequired, propertyName, k);
    }
  }

  /** 2.0 output has none of the 3.x annotations `nullable`, `writeOnly`, `deprecated` and `unrecognizedKeywords`. */
  lemma V2OmitsV3Annotations(s: Schema, parentRequired: seq<string>, propertyName: Option<string>)
    requires ExtensionKeysReserved(s)
    ensures forall k :: k in V3OnlyAnnotations ==> Occurrences(V2Members(s, parentRequired, propertyName), k) == []
  {
    AnnotationsOutsideV2();
    KeywordsNotExtensions();
    forall k | k in V3OnlyAnnotations
      ensures Occurrences(V2Members(s, parentRequired, propertyName), k) == []
    {
      V2Omits(s, parentRequired, propertyName, k);
    }
  }

  /** 2.0 output has none of the keywords of the 3.1 JSON Schema block except the two exclusive bounds, whose names 2.0 shares. */
  lemma V2OmitsJsonSchemaKeywords(s: Schema, parentRequired: seq<string>, propertyName: Option<string>)
    requires ExtensionKeysReserved(s)
    ensures forall k :: k in JsonSchemaKeywords - {K.V31ExclusiveMaximum, K.V31ExclusiveMinimum}
              ==> Occurrences(V2Members(s, parentRequired, propertyName), k) == []
  {
    JsonSchemaOutsideV2();
    KeywordsNotExtensions();
    forall k | k in JsonSchemaKeywords - {K.V31ExclusiveMaximum, K.V31ExclusiveMinimum}
      ensures Occurrences(V2Members(s, parentRequired, propertyName), k) == []
    {
      V2Omits(s, parentRequired, propertyName, k);
    }
  }

  /** 3.0 output carries none of the keywords of the JSON Schema block except the two exclusive bounds, whose names 3.0 shares. */
  lemma V30OmitsJsonSchemaKeywords(s: Schema)
    requires ExtensionKeysReserved(s)
    ensures forall k :: k in JsonSchemaKeywords - {K.V31ExclusiveMaximum, K.V31ExclusiveMinimum}
              ==> Occurrences(V3Members(s, OpenApi3_0), k) == []
  {
    JsonSchemaOutsideV30();
    KeywordsNotExtensions();
    forall k | k in JsonSchemaKeywords - {K.V31ExclusiveMaximum, K.V31ExclusiveMinimum}
      ensures Occurrences(V3Members(s, OpenApi3_0), k) == []
    {
      V3Omits(s, OpenApi3_0, k);
    }
  }

  /** 3.1 output never carries `nullable`: nullability goes into the `type` array. */
  lemma V31OmitsNullable(s: Schema)
    requires ExtensionKeysReserved(s)
    ensures Occurrences(V3Members(s, OpenApi3_1), K.Nullable) == []
  {
    NullablePlacement();
    V3Omits(s, OpenApi3_1, K.Nullable);
  }

  /** A prefix of a log followed by more events is the log itself. */
  lemma PrefixOfAppend(a: seq<Member>, b: seq<Member>)
    ensures |a| <= |a + b| && (a + b)[..|a|] == a
  {
  }

  /** 3.1 output starts with the JSON Schema block. */
  lemma JsonSchemaBlockLeads31(s: Schema)
    ensures var block := JsonSchemaKeywordMembers(s);
      |block| <= |V3Members(s, OpenApi3_1)| && V3Members(s, OpenApi3_1)[..|block|] == block
  {
    var block := JsonSchemaKeywordMembers(s);
    var b := StringProperty(K.Title, s.title);
    var c := ConstraintMembers(s);
    var d := TypeMembers(s, OpenApi3_1);
    var e := V3ChildMembers(s, OpenApi3_1);
    var f := V3AnnotationMembers(s, OpenApi3_1);
    assert V3Members(s, OpenApi3_1) == block + b + c + d + e + f;
    AppendAssoc(block, b, c);
    AppendAssoc(block, b + c, d);
    AppendAssoc(block, b + c + d, e);
    AppendAssoc(block, b + c + d + e, f);
    PrefixOfAppend(block, b + c + d + e + f);
  }

  // ---------------------------------------------------------------------------
  // Properties of the writers
  // ---------------------------------------------------------------------------

  /**
   * `additionalProperties` in 3.x output: the subschema when additional
   * properties are allowed, the single event `false` when they are not (the
   * subschema is then never written).
   */
  lemma AdditionalPropertiesV3(s: Schema, v: SpecVersion)
    requires ExtensionKeysReserved(s)
    ensures Occurrences(V3Members(s, v), K.AdditionalProperties)
         == if s.additionalPropertiesAllowed then OptionalObject(K.AdditionalProperties, SchemaValue(s.additionalProperties, v))
            else [Member(K.AdditionalProperties, JBool(false))]
  {
    var key := K.AdditionalProperties;
    V3Lookup(s, v, key);
    AdditionalPropertiesPlacement();
    JsonSchemaOmits(s, v, key);
    NoOccurrences(StringProperty(K.Title, s.title), key);
    ConstraintOmits(s, key);
    TypeOmits(s, v, key);
    V3ChildAdditionalProperties(s, v);
    V3AnnotationOmits(s, v, key);
  }

  /** The same in 2.0 output. */
  lemma AdditionalPropertiesV2(s: Schema, parentRequired: seq<string>, propertyName: Option<string>)
    requires ExtensionKeysReserved(s)
    ensures Occurrences(V2Members(s, parentRequired, propertyName), K.AdditionalProperties)
         == if s.additionalPropertiesAllowed then OptionalObject(K.AdditionalProperties, V2Value(s.additionalProperties))
            else [Member(K.AdditionalProperties, JBool(false))]
  {
    var key := K.AdditionalProperties;
    V2Lookup(s, parentRequired, propertyName, key);
    AdditionalPropertiesPlacement();
    V2HeadOmits(s, key);
    ConstraintOmits(s, key);
    V2ChildAdditionalProperties(s);
    V2AnnotationOmits(s, parentRequired, propertyName, key);
  }

  lemma {:induction false} V2ValuesLength(xs: seq<Schema>)
    ensures |V2Values(xs)| == |xs|
    decreases |xs|
  {
    if xs != [] {
      V2ValuesLength(xs[..|xs| - 1]);
    }
  }

  /** The 2.0 `allOf` holding only the first element of a list. */
  function FirstAsAllOf(xs: seq<Schema>): seq<Member>
    requires xs != []
  {
    [Member(K.AllOf, JArray([JObject(V2Members(xs[0], [], None))]))]
  }

  /** The `allOf` events of the 2.0 subschema block, case by case. */
  lemma AllOfCases(s: Schema)
    ensures OptionalCollection(K.AllOf, V2Values(s.allOf)) + AllOfDowngrade(s)
         == if s.allOf != [] then [Member(K.AllOf, JArray(V2Values(s.allOf)))]
            else if s.anyOf != [] then FirstAsAllOf(s.anyOf)
            else if s.oneOf != [] then FirstAsAllOf(s.oneOf)
            else []
  {
    V2ValuesLength(s.allOf);
  }

  /**
   * The `allOf` of 2.0 output: the schema's own `allOf` when it has one;
   * otherwise an `allOf` holding only the first `anyOf` element; otherwise
   * only the first `oneOf` element; otherwise none. There is never more than
   * one `allOf` event.
   */
  lemma V2AllOfDowngrade(s: Schema, parentRequired: seq<string>, propertyName: Option<string>)
    requires ExtensionKeysReserved(s)
    ensures Occurrences(V2Members(s, parentRequired, propertyName), K.AllOf)
         == if s.allOf != [] then [Member(K.AllOf, JArray(V2Values(s.allOf)))]
            else if s.anyOf != [] then FirstAsAllOf(s.anyOf)
            else if s.oneOf != [] then FirstAsAllOf(s.oneOf)
            else []
  {
    var key := K.AllOf;
    AllOfPlacement();
    V2Lookup(s, parentRequired, propertyName, key);
    V2HeadOmits(s, key);
    ConstraintOmits(s, key);
    V2ChildAllOf(s);
    V2AnnotationOmits(s, parentRequired, propertyName, key);
    AllOfCases(s);
  }

  /**
   * `readOnly` in 2.0 output: written (as `true`) only when the schema is
   * read-only and it is not a property that its parent lists as required.
   */
  lemma V2ReadOnly(s: Schema, parentRequired: seq<string>, propertyName: Option<string>)
    requires ExtensionKeysReserved(s)
    ensures Occurrences(V2Members(s, parentRequired, propertyName), K.ReadOnly)
         == if s.readOnly && !RequiredByParent(parentRequired, propertyName) then [Member(K.ReadOnly, JBool(true))] else []
  {
    var key := K.ReadOnly;
    ReadOnlyPlacement();
    V2Lookup(s, parentRequired, propertyName, key);
    V2HeadOmits(s, key);
    ConstraintOmits(s, key);
    V2ChildOmits(s, key);
    V2AnnotationReadOnly(s, parentRequired, propertyName);
  }

  /** The `properties` table of 2.0 output is the one `properties` event, written when there are properties. */
  lemma V2PropertiesWritten(s: Schema, parentRequired: seq<string>, propertyName: Option<string>)
    requires ExtensionKeysReserved(s)
    ensures Occurrences(V2Members(s, parentRequired, propertyName), K.Properties)
         == OptionalMap(K.Properties, V2PropertyMembers(s.properties, s.required))
  {
    var key := K.Properties;
    PropertiesPlacement();
    V2Lookup(s, parentRequired, propertyName, key);
    V2HeadOmits(s, key);
    ConstraintOmits(s, key);
    V2ChildProperties(s);
    V2AnnotationOmits(s, parentRequired, propertyName, key);
  }

  /** Each entry of the 2.0 `properties` table is written with the parent's `Required` and its own name. */
  lemma {:induction false} V2PropertyEntries(ps: seq<Property>, required: seq<string>)
    ensures |V2PropertyMembers(ps, required)| == |ps|
    ensures forall i :: 0 <= i < |ps| ==>
              V2PropertyMembers(ps, required)[i] == Member(ps[i].name, JObject(V2Members(ps[i].schema, required, Some(ps[i].name))))
    decreases |ps|
  {
    if ps != [] {
      V2PropertyEntries(ps[..|ps| - 1], required);
    }
  }

  /**
   * A property that its parent lists in `required` is never written as
   * `readOnly` in 2.0 output, whatever its own `ReadOnly` says; the parent's
   * `required` list reaches it through the `properties` table.
   */
  lemma RequiredPropertyNotReadOnly(s: Schema, parentRequired: seq<string>, propertyName: Option<string>, i: nat)
    requires i < |s.properties| && s.properties[i].name in s.required
    requires ExtensionKeysReserved(s) && ExtensionKeysReserved(s.properties[i].schema)
    ensures var p := s.properties[i];
      && Occurrences(V2Members(s, parentRequired, propertyName), K.Properties)
         == [Member(K.Properties, JObject(V2PropertyMembers(s.properties, s.required)))]
      && |V2PropertyMembers(s.properties, s.required)| == |s.properties|
      && V2PropertyMembers(s.properties, s.required)[i] == Member(p.name, JObject(V2Members(p.schema, s.required, Some(p.name))))
      && Occurrences(V2Members(p.schema, s.required, Some(p.name)), K.ReadOnly) == []
  {
    var p := s.properties[i];
    V2PropertiesWritten(s, parentRequired, propertyName);
    V2PropertyEntries(s.properties, s.required);
    V2ReadOnly(p.schema, s.required, Some(p.name));
  }

  /** `format` in 3.x output is the schema's own `Format`, when it has one. */
  lemma FormatV3(s: Schema, v: SpecVersion)
    requires ExtensionKeysReserved(s)
    ensures Occurrences(V3Members(s, v), K.Format) == StringProperty(K.Format, s.format)
  {
    var key := K.Format;
    V3Lookup(s, v, key);
    FormatPlacement();
    JsonSchemaOmits(s, v, key);
    NoOccurrences(StringProperty(K.Title, s.title), key);
    ConstraintOmits(s, key);
    TypeOmits(s, v, key);
    V3ChildOmits(s, v, key);
    V3AnnotationFormat(s, v);
  }

  /**
   * `format` in 2.0 output is the first non-empty `Format` of the schema,
   * its `allOf`, its `anyOf` and its `oneOf`, in that order.
   */
  lemma FormatV2(s: Schema, parentRequired: seq<string>, propertyName: Option<string>)
    requires ExtensionKeysReserved(s)
    ensures Occurrences(V2Members(s, parentRequired, propertyName), K.Format) == StringProperty(K.Format, FormatToWrite(s))
  {
    var key := K.Format;
    V2Lookup(s, parentRequired, propertyName, key);
    FormatPlacement();
    V2HeadFormat(s);
    ConstraintOmits(s, key);
    V2ChildOmits(s, key);
    V2AnnotationOmits(s, parentRequired, propertyName, key);
  }

  /**
   * The `type` events of a whole 3.x object, and its `nullable` events, are
   * exactly those of the type writer; so the statements about `TypeMembers`
   * hold of the whole object.
   */
  lemma TypeEventsV3(s: Schema, v: SpecVersion, key: string)
    requires ExtensionKeysReserved(s)
    requires key == K.Type || key == K.Nullable
    ensures Occurrences(V3Members(s, v), key) == Occurrences(TypeMembers(s, v), key)
  {
    if key == K.Type {
      TypePlacement();
    } else {
      NullablePlacement();
    }
    V3Lookup(s, v, key);
    JsonSchemaOmits(s, v, key);
    NoOccurrences(StringProperty(K.Title, s.title), key);
    ConstraintOmits(s, key);
    V3ChildOmits(s, v, key);
    V3AnnotationOmits(s, v, key);
  }

  /** The `type` events of a whole 2.0 object are exactly those of the type writer. */
  lemma TypeEventsV2(s: Schema, parentRequired: seq<string>, propertyName: Option<string>)
    requires ExtensionKeysReserved(s)
    ensures Occurrences(V2Members(s, parentRequired, propertyName), K.Type) == Occurrences(TypeMembers(s, OpenApi2_0), K.Type)
  {
    var key := K.Type;
    TypePlacement();
    V2Lookup(s, parentRequired, propertyName, key);
    V2HeadType(s);
    ConstraintOmits(s, key);
    V2ChildOmits(s, key);
    V2AnnotationOmits(s, parentRequired, propertyName, key);
  }

  /**
   * A 3.0 schema whose type is one concrete type plus Null and whose
   * `Nullable` is already true is written with that one `type` and no
   * `nullable` key at all: the down-cast leaves the key out to avoid writing
   * it twice, and no other block of the 3.0 object writes it.
   */
  lemma NullableTypePairV30(s: Schema, f: Flag)
    requires f != Null && s.schemaType == Some(Bit(f) | Bit(Null)) && s.nullable
    requires ExtensionKeysReserved(s)
    ensures Occurrences(V3Members(s, OpenApi3_0), K.Type) == [TypeName(Identifier(f))]
    ensures Occurrences(V3Members(s, OpenApi3_0), K.Nullable) == []
  {
    DowncastOneTypeAndNull(s, f, OpenApi3_0);
    TypeEventsV3(s, OpenApi3_0, K.Type);
    TypeEventsV3(s, OpenApi3_0, K.Nullable);
    OccurrencesAtMostOne(TypeMembers(s, OpenApi3_0), K.Type);
    OccurrencesAtMostOne(TypeMembers(s, OpenApi3_0), K.Nullable);
  }
}
